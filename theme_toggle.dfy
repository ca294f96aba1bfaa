/**
 * The light/dark theme switch (app/components/ThemeToggle.tsx): the theme
 * state, the two effects that put a `theme-…` class on the root element and
 * persist the theme, and the rule that the payment screens stay light.
 *
 * The root element's class list is the field `classes`, `localStorage` the
 * field `storage` and `usePathname()` the field `pathname`. The stored value
 * is read without checking it, so `theme` is any string, as in the source.
 */
module ThemeToggle {
  import opened Wrappers
  import Text

  const ThemeKey := "theme"
  const ThemeClasses: set<string> := {"theme-light", "theme-dark"}

  /** `pathname?.startsWith("/payment")`. */
  predicate OnPayment(pathname: Option<string>) {
    pathname.Some? && Text.StartsWith(pathname.value, "/payment")
  }

  /** The button's click: light becomes dark, anything else light. */
  function Toggled(theme: string): string {
    if theme == "light" then "dark" else "light"
  }

  /** `(saved as "light" | "dark") || "light"`. */
  function InitialTheme(saved: Option<string>): string {
    if saved.Some? && saved.value != "" then saved.value else "light"
  }

  /** The class the root gets: `theme-light` on the payment screens, `theme-<theme>` elsewhere. */
  function ThemeClass(pathname: Option<string>, theme: string): string {
    if OnPayment(pathname) then "theme-light" else "theme-" + theme
  }

  /** The class list after `remove("theme-light", "theme-dark")` and `add(c)`. */
  function WithThemeClass(classes: set<string>, c: string): set<string> {
    classes - ThemeClasses + {c}
  }

  /** The storage after the apply effect: the theme is saved except on the payment screens. */
  function Persisted(storage: map<string, string>, pathname: Option<string>, theme: string): map<string, string> {
    if OnPayment(pathname) then storage else storage[ThemeKey := theme]
  }

  /** A click always lands on light or dark, switches between the two, and a second click undoes the first. */
  lemma ToggleInvolution(theme: string)
    ensures Toggled(theme) in {"light", "dark"}
    ensures theme in {"light", "dark"} ==> Toggled(theme) != theme && Toggled(Toggled(theme)) == theme
    ensures theme !in {"light", "dark"} ==> Toggled(theme) == "light"
  {
  }

  /** With nothing (or an empty string) saved the theme starts light; a saved value is taken as it is. */
  lemma InitialThemeMeaning(saved: Option<string>)
    ensures saved.None? ==> InitialTheme(saved) == "light"
    ensures saved.Some? && saved.value != "" ==> InitialTheme(saved) == saved.value
    ensures InitialTheme(saved) != ""
  {
  }

  /**
   * After the apply effect the root carries exactly one of `theme-light` and
   * `theme-dark` whenever the theme is light or dark: `theme-light` on the
   * payment screens, the theme's own class elsewhere. Other classes are kept.
   */
  lemma OneThemeClass(classes: set<string>, pathname: Option<string>, theme: string)
    requires theme in {"light", "dark"}
    ensures var r := WithThemeClass(classes, ThemeClass(pathname, theme));
      && ("theme-light" in r <==> OnPayment(pathname) || theme == "light")
      && ("theme-dark" in r <==> !OnPayment(pathname) && theme == "dark")
      && !("theme-light" in r && "theme-dark" in r)
      && (forall c :: c in classes && c !in ThemeClasses ==> c in r)
  {
    var r := WithThemeClass(classes, ThemeClass(pathname, theme));
    if !OnPayment(pathname) {
      assert ThemeClass(pathname, theme) == "theme-" + theme;
      if theme == "dark" {
        assert "theme-" + theme == "theme-dark";
        assert "theme-light"[6] != "theme-dark"[6];
      } else {
        assert "theme-" + theme == "theme-light";
        assert "theme-light"[6] != "theme-dark"[6];
      }
    }
  }

  /**
   * The payment screens never write the storage; elsewhere the theme is
   * saved, and the next mount reads it back.
   */
  lemma PersistenceRule(storage: map<string, string>, pathname: Option<string>, theme: string)
    ensures OnPayment(pathname) ==> Persisted(storage, pathname, theme) == storage
    ensures !OnPayment(pathname) ==> Persisted(storage, pathname, theme) == storage[ThemeKey := theme]
    ensures !OnPayment(pathname) && theme != "" ==>
      InitialTheme(Some(Persisted(storage, pathname, theme)[ThemeKey])) == theme
  {
  }

  class ThemeToggle {
    var theme: string
    var pathname: Option<string>
    var classes: set<string>
    var storage: map<string, string>

    /** `useState("light")` on the given page, root and storage. */
    constructor (pathname: Option<string>, classes: set<string>, storage: map<string, string>)
      ensures theme == "light"
      ensures this.pathname == pathname && this.classes == classes && this.storage == storage
    {
      theme := "light";
      this.pathname := pathname;
      this.classes := classes;
      this.storage := storage;
    }

    /** The button is rendered only off the payment screens. */
    predicate Visible()
      reads this
    {
      !OnPayment(pathname)
    }

    /** The mount effect: the saved theme (or light) becomes the theme and the root's class. */
    method LoadSaved()
      modifies this
      ensures theme == InitialTheme(if ThemeKey in old(storage) then Some(old(storage)[ThemeKey]) else None)
      ensures classes == WithThemeClass(old(classes), "theme-" + theme)
      ensures pathname == old(pathname) && storage == old(storage)
    {
      var saved := if ThemeKey in storage then Some(storage[ThemeKey]) else None;
      var initial := if saved.Some? && saved.value != "" then saved.value else "light";
      theme := initial;
      classes := classes - {"theme-light", "theme-dark"};
      classes := classes + {"theme-" + initial};
    }

    /** The effect run on every change of path or theme. */
    method ApplyTheme()
      modifies this
      ensures classes == WithThemeClass(old(classes), ThemeClass(pathname, theme))
      ensures storage == Persisted(old(storage), pathname, theme)
      ensures theme == old(theme) && pathname == old(pathname)
    {
      var isPayment := pathname.Some? && Text.StartsWith(pathname.value, "/payment");
      classes := classes - {"theme-light", "theme-dark"};
      if isPayment {
        classes := classes + {"theme-light"};
      } else {
        classes := classes + {"theme-" + theme};
        storage := storage[ThemeKey := theme];
      }
    }

    /** A click on the button. */
    method Toggle()
      requires Visible()
      modifies this
      ensures theme == Toggled(old(theme))
      ensures pathname == old(pathname) && classes == old(classes) && storage == old(storage)
    {
      theme := if theme == "light" then "dark" else "light";
    }

    /** Navigation to another page. */
    method Navigate(path: Option<string>)
      modifies this
      ensures pathname == path
      ensures theme == old(theme) && classes == old(classes) && storage == old(storage)
    {
      pathname := path;
    }
  }
}
