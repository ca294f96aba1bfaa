/**
 * The settings page (app/settings/page.tsx): the store information and
 * preference toggles edited in place, the display size that sets the root
 * font size, and its persistence under the storage key "displaySize".
 *
 * `localStorage` is the field `storage`, the root element's inline font size
 * the field `rootFontPx`; `alert` and `console.log` are not modelled.
 */
module SettingsPage {
  import opened Wrappers

  datatype StoreInfo = StoreInfo(storeName: string, ownerName: string, contactNumber: string, storeAddress: string)

  datatype Preferences = Preferences(soundAlerts: bool, allowUtang: bool)

  /** The names `handleInputChange` is called with. */
  datatype StoreField = StoreName | OwnerName | ContactNumber | StoreAddress

  /** The names `handleToggle` is called with. */
  datatype Preference = SoundAlerts | AllowUtang

  const SizeKey := "displaySize"
  const Small := "Small"
  const Medium := "Medium (Recommended)"
  const Large := "Large"

  /** The store information the page starts with and Cancel restores. */
  function DefaultStoreInfo(): StoreInfo {
    StoreInfo("Maria's Sari-Sari Store", "Maria Santos", "+63 912 345 6789", "123 Barangay Street, Manila")
  }

  /** The pixel size `applyFontSize` sets for a display size; `None` when it sets nothing. */
  function FontPx(size: string): Option<int> {
    if size == Small then Some(14)
    else if size == Medium then Some(16)
    else if size == Large then Some(18)
    else None
  }

  /** The root font size after `applyFontSize(size)`: the size's pixels, or unchanged. */
  function AppliedFont(current: Option<int>, size: string): Option<int> {
    if FontPx(size).Some? then FontPx(size) else current
  }

  /** `{ ...storeInfo, [field]: value }`. */
  function WithStoreField(info: StoreInfo, field: StoreField, value: string): StoreInfo {
    match field
    case StoreName => info.(storeName := value)
    case OwnerName => info.(ownerName := value)
    case ContactNumber => info.(contactNumber := value)
    case StoreAddress => info.(storeAddress := value)
  }

  function StoreFieldValue(info: StoreInfo, field: StoreField): string {
    match field
    case StoreName => info.storeName
    case OwnerName => info.ownerName
    case ContactNumber => info.contactNumber
    case StoreAddress => info.storeAddress
  }

  function PreferenceValue(p: Preferences, pref: Preference): bool {
    match pref
    case SoundAlerts => p.soundAlerts
    case AllowUtang => p.allowUtang
  }

  /** `{ ...preferences, [field]: !preferences[field] }`. */
  function Toggled(p: Preferences, pref: Preference): Preferences {
    match pref
    case SoundAlerts => p.(soundAlerts := !p.soundAlerts)
    case AllowUtang => p.(allowUtang := !p.allowUtang)
  }

  /** The display size the page shows after mounting: the saved one when there is a non-empty one. */
  function MountedSize(storage: map<string, string>, current: string): string {
    if SizeKey in storage && storage[SizeKey] != "" then storage[SizeKey] else current
  }

  /**
   * The three sizes of the select set 14, 16 and 18 pixels, growing with the
   * size; every other text leaves the root font size as it was.
   */
  lemma FontSizes(size: string, current: Option<int>)
    ensures FontPx(size).Some? <==> size in {Small, Medium, Large}
    ensures FontPx(Small).value < FontPx(Medium).value < FontPx(Large).value
    ensures FontPx(Medium) == Some(16)
    ensures size !in {Small, Medium, Large} ==> AppliedFont(current, size) == current
    ensures AppliedFont(AppliedFont(current, size), size) == AppliedFont(current, size)
  {
  }

  /** An input change sets the named store field and no other. */
  lemma StoreFieldFrame(info: StoreInfo, field: StoreField, value: string, other: StoreField)
    ensures StoreFieldValue(WithStoreField(info, field, value), field) == value
    ensures other != field ==> StoreFieldValue(WithStoreField(info, field, value), other) == StoreFieldValue(info, other)
  {
  }

  /** A toggle flips the named preference, leaves the other, and a second toggle undoes it. */
  lemma ToggleFlips(p: Preferences, pref: Preference, other: Preference)
    ensures PreferenceValue(Toggled(p, pref), pref) == !PreferenceValue(p, pref)
    ensures other != pref ==> PreferenceValue(Toggled(p, pref), other) == PreferenceValue(p, other)
    ensures Toggled(Toggled(p, pref), pref) == p
  {
  }

  /**
   * A size applied and saved comes back on the next mount: the mounted page
   * shows it and sets the same root font size, whatever the page held before.
   */
  lemma AppliedSizeSurvivesReload(storage: map<string, string>, size: string, before: string, font: Option<int>, font2: Option<int>)
    requires size in {Small, Medium, Large}
    ensures MountedSize(storage[SizeKey := size], before) == size
    ensures AppliedFont(font2, MountedSize(storage[SizeKey := size], before)) == AppliedFont(font, size)
  {
  }

  class SettingsPage {
    var storeInfo: StoreInfo
    var preferences: Preferences
    var displaySize: string
    /** The root element's font size in pixels; `None` while no size was applied. */
    var rootFontPx: Option<int>
    var storage: map<string, string>

    /** The initial state: the default store information, sound alerts on, utang off, medium size. */
    constructor (storage: map<string, string>, rootFontPx: Option<int>)
      ensures storeInfo == DefaultStoreInfo() && preferences == Preferences(true, false)
      ensures displaySize == Medium
      ensures this.storage == storage && this.rootFontPx == rootFontPx
    {
      storeInfo := DefaultStoreInfo();
      preferences := Preferences(true, false);
      displaySize := Medium;
      this.storage := storage;
      this.rootFontPx := rootFontPx;
    }

    /** The mount effect: a non-empty saved size becomes the display size and is applied. */
    method Mount()
      modifies this
      ensures displaySize == MountedSize(old(storage), old(displaySize))
      ensures SizeKey in old(storage) && old(storage)[SizeKey] != "" ==>
        rootFontPx == AppliedFont(old(rootFontPx), old(storage)[SizeKey])
      ensures !(SizeKey in old(storage) && old(storage)[SizeKey] != "") ==> rootFontPx == old(rootFontPx)
      ensures storeInfo == old(storeInfo) && preferences == old(preferences) && storage == old(storage)
    {
      if SizeKey in storage && storage[SizeKey] != "" {
        var saved := storage[SizeKey];
        displaySize := saved;
        ApplyFontSize(saved);
      }
    }

    /** `applyFontSize`. */
    method ApplyFontSize(size: string)
      modifies this
      ensures rootFontPx == AppliedFont(old(rootFontPx), size)
      ensures storeInfo == old(storeInfo) && preferences == old(preferences)
      ensures displaySize == old(displaySize) && storage == old(storage)
    {
      if size == Small {
        rootFontPx := Some(14);
      } else if size == Medium {
        rootFontPx := Some(16);
      } else if size == Large {
        rootFontPx := Some(18);
      }
    }

    /** `handleInputChange`. */
    method HandleInputChange(field: StoreField, value: string)
      modifies this
      ensures storeInfo == WithStoreField(old(storeInfo), field, value)
      ensures preferences == old(preferences) && displaySize == old(displaySize)
      ensures rootFontPx == old(rootFontPx) && storage == old(storage)
    {
      storeInfo := WithStoreField(storeInfo, field, value);
    }

    /** `handleToggle`. */
    method HandleToggle(pref: Preference)
      modifies this
      ensures preferences == Toggled(old(preferences), pref)
      ensures storeInfo == old(storeInfo) && displaySize == old(displaySize)
      ensures rootFontPx == old(rootFontPx) && storage == old(storage)
    {
      preferences := Toggled(preferences, pref);
    }

    /** The Cancel button: the default store information comes back. */
    method Cancel()
      modifies this
      ensures storeInfo == DefaultStoreInfo()
      ensures preferences == old(preferences) && displaySize == old(displaySize)
      ensures rootFontPx == old(rootFontPx) && storage == old(storage)
    {
      storeInfo := DefaultStoreInfo();
    }

    /** The display-size select's `onChange`. */
    method SelectDisplaySize(size: string)
      modifies this
      ensures displaySize == size
      ensures storeInfo == old(storeInfo) && preferences == old(preferences)
      ensures rootFontPx == old(rootFontPx) && storage == old(storage)
    {
      displaySize := size;
    }

    /** `handleApplySettings`: the size is applied and saved under "displaySize". */
    method ApplySettings()
      modifies this
      ensures rootFontPx == AppliedFont(old(rootFontPx), displaySize)
      ensures storage == old(storage)[SizeKey := displaySize]
      ensures storeInfo == old(storeInfo) && preferences == old(preferences) && displaySize == old(displaySize)
    {
      ApplyFontSize(displaySize);
      storage := storage[SizeKey := displaySize];
    }
  }
}
