/**
 * The payment screen's amount entry (app/payment/PaymentWidget.tsx): the
 * `amount` string edited by `addDigit`, `clear` and `backspace`, the keypad
 * that drives them, the payment-mode buttons and the completion message.
 *
 * The state updates are the pure functions below; the `PaymentWidget` class
 * holds the `amount` and `paymentMode` state they replace.
 */
module PaymentWidget {
  import Text

  datatype PaymentMode = Cash | GCash

  /** A keypad button: one of the ten digits, "Clear" or "←". */
  datatype Key = DigitKey(d: char) | ClearKey | BackKey

  /** No `.` occurs twice. */
  predicate AtMostOneDot(a: string) {
    forall i, j :: 0 <= i < j < |a| && a[i] == '.' ==> a[j] != '.'
  }

  /** A `0` followed by another digit at the front, which the entry avoids. */
  predicate LeadingZero(a: string) {
    |a| >= 2 && a[0] == '0' && Text.IsDigit(a[1])
  }

  /** The shape every amount keeps: at most one `.` and no leading zero before a digit. */
  predicate WellFormed(a: string) {
    AtMostOneDot(a) && !LeadingZero(a)
  }

  predicate AllDigits(a: string) {
    forall i :: 0 <= i < |a| ==> Text.IsDigit(a[i])
  }

  /**
   * `addDigit(d)`: a `.` is dropped when the amount has one already and
   * appended otherwise, falling back to `"0."` only when the appended string
   * is empty; any other key replaces an amount of exactly `"0"` and is
   * appended to anything else.
   */
  function DigitEntered(a: string, d: char): string {
    if d == '.' then
      if '.' in a then a
      else
        var appended := a + [d];
        if appended != "" then appended else "0."
    else if a == "0" then [d]
    else a + [d]
  }

  /** `prev.slice(0, -1)`: the last character goes; an empty amount stays empty. */
  function Backspaced(a: string): (r: string)
    ensures a == "" ==> r == ""
    ensures a != "" ==> |r| == |a| - 1 && r + [a[|a| - 1]] == a
  {
    if a == "" then "" else a[..|a| - 1]
  }

  /** The keypad's click handler: Clear clears, ← erases, a digit goes to `addDigit`. */
  function Pressed(a: string, k: Key): string {
    match k
    case ClearKey => ""
    case BackKey => Backspaced(a)
    case DigitKey(d) => DigitEntered(a, d)
  }

  /** The keypad's buttons: the digits `0`..`9`, Clear and ←. */
  predicate OnKeypad(k: Key) {
    k.DigitKey? ==> Text.IsDigit(k.d)
  }

  /** The amount after pressing `keys` in order, starting from the empty amount. */
  function Typed(keys: seq<Key>): string {
    if keys == [] then "" else Pressed(Typed(keys[..|keys| - 1]), keys[|keys| - 1])
  }

  /** The amount the completion message shows: `amount || "0.00"`. */
  function Shown(a: string): (r: string)
    ensures r != ""
    ensures a != "" ==> r == a
  {
    if a != "" then a else "0.00"
  }

  /**
   * A `.` is dropped exactly when the amount already has one and appended
   * otherwise; in particular the empty amount becomes `"."`, never `"0."`,
   * since the appended string is never empty.
   */
  lemma DotEntry(a: string)
    ensures '.' in a ==> DigitEntered(a, '.') == a
    ensures '.' !in a ==> DigitEntered(a, '.') == a + "."
    ensures DigitEntered("", '.') == "."
  {
  }

  /** Any other key takes the place of a lone `0` and is appended to every other amount. */
  lemma DigitEntry(a: string, d: char)
    requires d != '.'
    ensures a == "0" ==> DigitEntered(a, d) == [d]
    ensures a != "0" ==> DigitEntered(a, d) == a + [d]
    ensures |DigitEntered(a, d)| == if a == "0" then 1 else |a| + 1
  {
  }

  /** `addDigit` keeps at most one `.` and never puts a `0` in front of another digit. */
  lemma EntryKeepsShape(a: string, d: char)
    requires WellFormed(a)
    ensures WellFormed(DigitEntered(a, d))
  {
    var r := DigitEntered(a, d);
    if d == '.' && '.' !in a {
      assert forall i :: 0 <= i < |a| ==> r[i] == a[i];
    } else if d != '.' && a != "0" {
      forall i, j | 0 <= i < j < |r| && r[i] == '.' ensures r[j] != '.' {
        if j < |a| {
          assert r[i] == a[i] && r[j] == a[j];
        }
      }
      if |a| == 1 {
        assert a[0] != '0';
      }
    }
  }

  /** `backspace` keeps the shape too. */
  lemma BackspaceKeepsShape(a: string)
    requires WellFormed(a)
    ensures WellFormed(Backspaced(a))
  {
  }

  /**
   * `backspace` undoes an `addDigit` that appended: a `.` on an amount
   * without one, or another key on an amount other than `"0"`.
   */
  lemma BackspaceUndoesEntry(a: string, d: char)
    requires (d == '.' && '.' !in a) || (d != '.' && a != "0")
    ensures Backspaced(DigitEntered(a, d)) == a
  {
    assert (a + [d])[..|a|] == a;
  }

  /**
   * Whatever is pressed on the keypad, starting from the empty amount, the
   * amount holds digits only (so no `.` at all) and has no leading zero.
   */
  lemma {:induction false} KeypadAmount(keys: seq<Key>)
    requires forall i :: 0 <= i < |keys| ==> OnKeypad(keys[i])
    ensures AllDigits(Typed(keys))
    ensures WellFormed(Typed(keys))
  {
    if keys != [] {
      var prev := keys[..|keys| - 1];
      var k := keys[|keys| - 1];
      KeypadAmount(prev);
      var a := Typed(prev);
      match k
      case ClearKey =>
      case BackKey =>
        BackspaceKeepsShape(a);
      case DigitKey(d) =>
        assert d != '.';
        EntryKeepsShape(a, d);
        var r := DigitEntered(a, d);
        forall i | 0 <= i < |r| ensures Text.IsDigit(r[i]) {
          if a != "0" && i < |a| {
            assert r[i] == a[i];
          }
        }
    }
  }

  /** The widget's state: the entered amount and the selected payment mode. */
  class PaymentWidget {
    var amount: string
    var paymentMode: PaymentMode

    predicate Valid()
      reads this
    {
      WellFormed(amount)
    }

    /** `useState("")` and `useState("Cash")`. */
    constructor ()
      ensures amount == "" && paymentMode == Cash
      ensures Valid()
    {
      amount := "";
      paymentMode := Cash;
    }

    method AddDigit(d: char)
      requires Valid()
      modifies this
      ensures Valid()
      ensures amount == DigitEntered(old(amount), d)
      ensures paymentMode == old(paymentMode)
    {
      EntryKeepsShape(amount, d);
      if d == '.' {
        if '.' in amount {
          return;
        }
        var appended := amount + [d];
        amount := if appended != "" then appended else "0.";
        return;
      }
      amount := if amount == "0" then [d] else amount + [d];
    }

    method Clear()
      requires Valid()
      modifies this
      ensures Valid()
      ensures amount == "" && paymentMode == old(paymentMode)
    {
      amount := "";
    }

    method Backspace()
      requires Valid()
      modifies this
      ensures Valid()
      ensures amount == Backspaced(old(amount))
      ensures paymentMode == old(paymentMode)
    {
      BackspaceKeepsShape(amount);
      amount := if amount == "" then "" else amount[..|amount| - 1];
    }

    /** The two mode buttons: `setPaymentMode("Cash")` and `setPaymentMode("GCash")`. */
    method SelectMode(mode: PaymentMode)
      modifies this
      ensures paymentMode == mode && amount == old(amount)
    {
      paymentMode := mode;
    }

    /** A keypad click. */
    method Press(k: Key)
      requires Valid()
      modifies this
      ensures Valid()
      ensures amount == Pressed(old(amount), k)
      ensures paymentMode == old(paymentMode)
    {
      match k
      case ClearKey => Clear();
      case BackKey => Backspace();
      case DigitKey(d) => AddDigit(d);
    }

    /** `complete`: the alert's text and the route it then pushes. */
    method Complete() returns (message: string, target: string)
      ensures message == "Payment completed: " + Shown(amount)
      ensures target == "/mainpos"
    {
      message := "Payment completed: " + (if amount != "" then amount else "0.00");
      target := "/mainpos";
    }
  }
}
