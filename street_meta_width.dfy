/**
 * The street-width label and its drop-down menu: clicking the label opens
 * the menu (when the width is editable); choosing an entry closes it and
 * switches units, prompts for a custom width, does nothing, or sets the
 * width to the entry chosen.
 *
 * The units helpers, width normalisation and input parsing live in other
 * packages and are passed in as functions; the browser prompt's answer is
 * an input.
 */
module StreetMetaWidth {
  import opened Wrappers

  // ----------------------------------------------------------------------
  // Number.parseInt(value, 10)

  /** The result of `parseInt`: an integer, or NaN. */
  datatype JsNumber = Int(n: int) | NaN

  /** The ECMAScript white space and line terminator characters. */
  predicate IsJsWhitespace(c: char) {
    var n := c as int;
    n == 0x09 || n == 0x0A || n == 0x0B || n == 0x0C || n == 0x0D || n == 0x20 || n == 0xA0 ||
    n == 0x1680 || (0x2000 <= n <= 0x200A) || n == 0x2028 || n == 0x2029 || n == 0x202F ||
    n == 0x205F || n == 0x3000 || n == 0xFEFF
  }

  predicate IsDigit(c: char) { '0' <= c <= '9' }

  predicate AllDigits(s: string) { forall i :: 0 <= i < |s| ==> IsDigit(s[i]) }

  /** `s` without its leading white space. */
  function TrimStart(s: string): (r: string)
    ensures |r| <= |s| && r == s[|s| - |r|..]
    ensures r == [] || !IsJsWhitespace(r[0])
  {
    if s != [] && IsJsWhitespace(s[0]) then TrimStart(s[1..]) else s
  }

  /** The longest prefix of `s` made of decimal digits. */
  function DigitPrefix(s: string): (r: string)
    ensures r <= s && AllDigits(r)
    ensures |r| == |s| || !IsDigit(s[|r|])
  {
    if s != [] && IsDigit(s[0]) then [s[0]] + DigitPrefix(s[1..]) else []
  }

  /** The number a string of decimal digits denotes. */
  function DigitsValue(d: string): nat
    requires AllDigits(d)
  {
    if d == [] then 0 else DigitsValue(d[..|d| - 1]) * 10 + (d[|d| - 1] as int - '0' as int)
  }

  /**
   * `Number.parseInt(value, 10)`: skip leading white space, read an optional
   * sign, then the longest run of digits; NaN when there are none.
   */
  function ParseInt(value: string): (r: JsNumber)
    ensures r.NaN? <==> DigitPrefix(ParseBody(value)) == []
  {
    var digits := DigitPrefix(ParseBody(value));
    if digits == [] then NaN else Int(ParseSign(value) * DigitsValue(digits))
  }

  /** The sign `parseInt` reads after the leading white space. */
  function ParseSign(value: string): int {
    var s := TrimStart(value);
    if s != [] && s[0] == '-' then -1 else 1
  }

  /** What follows the white space and the sign. */
  function ParseBody(value: string): string {
    var s := TrimStart(value);
    if s != [] && (s[0] == '-' || s[0] == '+') then s[1..] else s
  }

  function DigitChar(d: nat): char
    requires d < 10
  {
    ('0' as int + d) as char
  }

  /** The decimal digits of `n`, most significant first. */
  function NatDigits(n: nat): string
    decreases n
  {
    if n < 10 then [DigitChar(n)] else NatDigits(n / 10) + [DigitChar(n % 10)]
  }

  /** The decimal spelling of `n`, as `String(n)` gives it. */
  function DecimalString(n: int): string {
    if n < 0 then "-" + NatDigits(-n) else NatDigits(n)
  }

  lemma {:induction false} NatDigitsValue(n: nat)
    ensures NatDigits(n) != [] && AllDigits(NatDigits(n))
    ensures DigitsValue(NatDigits(n)) == n
    decreases n
  {
    if n >= 10 {
      NatDigitsValue(n / 10);
      var d := NatDigits(n);
      assert d == NatDigits(n / 10) + [DigitChar(n % 10)];
      assert d[..|d| - 1] == NatDigits(n / 10);
    }
  }

  /** The digit prefix of digits followed by something that is not a digit is those digits. */
  lemma {:induction false} DigitPrefixOfDigits(d: string, t: string)
    requires AllDigits(d)
    requires t == [] || !IsDigit(t[0])
    ensures DigitPrefix(d + t) == d
  {
    if d != [] {
      assert (d + t)[0] == d[0];
      assert (d + t)[1..] == d[1..] + t;
      DigitPrefixOfDigits(d[1..], t);
    }
  }

  /**
   * `parseInt` reads back the decimal spelling of any integer, whatever
   * non-digit text follows it.
   */
  lemma ParseIntDecimal(n: int, t: string)
    requires t == [] || !IsDigit(t[0])
    ensures ParseInt(DecimalString(n) + t) == Int(n)
  {
    var m: nat := if n < 0 then -n else n;
    NatDigitsValue(m);
    if n < 0 {
      assert DecimalString(n) + t == ['-'] + (NatDigits(m) + t);
      ParseSignedDigits(NatDigits(m), t, '-');
    } else {
      ParseDigits(NatDigits(m), t);
    }
  }

  /** Digits followed by a non-digit parse to their value. */
  lemma ParseDigits(d: string, t: string)
    requires d != [] && AllDigits(d)
    requires t == [] || !IsDigit(t[0])
    ensures ParseInt(d + t) == Int(DigitsValue(d))
  {
    var s := d + t;
    assert s[0] == d[0] && IsDigit(s[0]);
    assert TrimStart(s) == s;
    assert ParseSign(s) == 1 && ParseBody(s) == s;
    DigitPrefixOfDigits(d, t);
    assert DigitPrefix(ParseBody(s)) == d;
  }

  /** A sign, digits and a non-digit parse to the signed value of the digits. */
  lemma ParseSignedDigits(d: string, t: string, sign: char)
    requires d != [] && AllDigits(d)
    requires t == [] || !IsDigit(t[0])
    requires sign == '-' || sign == '+'
    ensures sign == '-' ==> ParseInt([sign] + (d + t)) == Int(-(DigitsValue(d) as int))
    ensures sign == '+' ==> ParseInt([sign] + (d + t)) == Int(DigitsValue(d))
  {
    ParseUnsigned(d + t, sign);
    DigitPrefixOfDigits(d, t);
  }

  /** A sign character directly at the start is read as the sign. */
  lemma ParseUnsigned(body: string, sign: char)
    requires sign == '-' || sign == '+'
    ensures TrimStart([sign] + body) == [sign] + body
    ensures ParseBody([sign] + body) == body
    ensures ParseSign([sign] + body) == if sign == '-' then -1 else 1
  {
    var s := [sign] + body;
    assert s[0] == sign && s[1..] == body;
  }

  /** A string with no digit after its white space and sign parses to NaN. */
  lemma ParseIntNaN(value: string)
    requires ParseBody(value) == [] || !IsDigit(ParseBody(value)[0])
    ensures ParseInt(value) == NaN
  {
  }

  // ----------------------------------------------------------------------
  // The menu

  datatype Units = Metric | Imperial

  datatype Street = Street(units: Units, width: real, occupiedWidth: real)

  /** The values of the menu's special entries. */
  datatype MenuValues = MenuValues(switchToMetric: int, switchToImperial: int, custom: int)

  /** The helpers the menu calls into. */
  datatype Helpers = Helpers(normalizeStreetWidth: (real, Units) -> real,
                             processWidthInput: (string, Units) -> real,
                             prettifyWidth: (real, Units) -> string)

  /** What handling a menu choice does, in the order it does it. */
  datatype Effect =
    | UpdateUnits(units: Units)
    | PromptForWidth(suggested: string)
    | UpdateStreetWidth(width: real)

  /** A prompt answer is truthy when the user confirmed a non-empty string. */
  predicate Answered(answer: Option<string>) { answer.Some? && answer.value != "" }

  /**
   * The effects of choosing the menu entry that parses to `selection`.  The cases are tried in
   * order (the special entries, then the current width, then any other
   * entry); NaN equals none of them and is falsy.
   */
  function MenuEffects(selection: JsNumber, street: Street, values: MenuValues, helpers: Helpers,
                       answer: Option<string>): seq<Effect>
  {
    match selection
    case NaN => []
    case Int(n) =>
      if n == values.switchToMetric then [UpdateUnits(Metric)]
      else if n == values.switchToImperial then [UpdateUnits(Imperial)]
      else if n == values.custom then
        var suggested := helpers.normalizeStreetWidth(street.occupiedWidth, street.units);
        [PromptForWidth(helpers.prettifyWidth(suggested, street.units))] +
        (if Answered(answer) then
           [UpdateStreetWidth(helpers.normalizeStreetWidth(
              helpers.processWidthInput(answer.value, street.units), street.units))]
         else [])
      else if n as real == street.width then []
      else if n != 0 then [UpdateStreetWidth(n as real)]
      else []
  }

  /** The unit entries switch units and never touch the width. */
  lemma UnitSwitch(selection: JsNumber, street: Street, values: MenuValues, helpers: Helpers, answer: Option<string>)
    requires selection.Int?
    ensures selection.n == values.switchToMetric ==>
      MenuEffects(selection, street, values, helpers, answer) == [UpdateUnits(Metric)]
    ensures selection.n != values.switchToMetric && selection.n == values.switchToImperial ==>
      MenuEffects(selection, street, values, helpers, answer) == [UpdateUnits(Imperial)]
  {
  }

  /**
   * The custom entry prompts, suggesting the occupied width, and sets the
   * width only when the prompt is answered, to the answer normalised.
   */
  lemma CustomWidth(selection: JsNumber, street: Street, values: MenuValues, helpers: Helpers, answer: Option<string>)
    requires selection == Int(values.custom)
    requires values.custom != values.switchToMetric && values.custom != values.switchToImperial
    ensures var e := MenuEffects(selection, street, values, helpers, answer);
      var u := street.units;
      e[0] == PromptForWidth(helpers.prettifyWidth(helpers.normalizeStreetWidth(street.occupiedWidth, u), u)) &&
      (|e| == 2 <==> Answered(answer)) && |e| <= 2 &&
      (|e| == 2 ==> e[1] == UpdateStreetWidth(
         helpers.normalizeStreetWidth(helpers.processWidthInput(answer.value, u), u)))
  {
  }

  /**
   * Outside the special entries, the width is set only to the entry chosen,
   * only when that is nonzero, and never to the width the street already has.
   */
  lemma PlainSelection(selection: JsNumber, street: Street, values: MenuValues, helpers: Helpers, answer: Option<string>)
    requires selection.Int?
    requires var n := selection.n;
      n != values.switchToMetric && n != values.switchToImperial && n != values.custom
    ensures var n := selection.n;
      var e := MenuEffects(selection, street, values, helpers, answer);
      (e != [] <==> n != 0 && n as real != street.width) &&
      (e != [] ==> e == [UpdateStreetWidth(n as real)])
  {
  }

  /** An entry that is not a number does nothing. */
  lemma NotANumber(selection: JsNumber, street: Street, values: MenuValues, helpers: Helpers, answer: Option<string>)
    requires selection.NaN?
    ensures MenuEffects(selection, street, values, helpers, answer) == []
  {
  }

  /** Whether the width may be edited: never on a read-only street, and only with the feature flag on. */
  function Editable(readOnly: bool, editStreetWidthFlag: bool): (r: bool)
    ensures readOnly ==> !r
    ensures !editStreetWidthFlag ==> !r
    ensures !readOnly && editStreetWidthFlag ==> r
  {
    !readOnly && editStreetWidthFlag
  }

  /** The `editable` prop; `None` is a prop not supplied (`undefined`), which defaults to `true`. */
  function EditableProp(editable: Option<bool>): (r: bool)
    ensures editable.None? ==> r
    ensures editable.Some? ==> r == editable.value
  {
    editable.GetOr(true)
  }

  datatype WidthView = Label(editable: bool) | Menu

  class StreetMetaWidthContainer {
    var isEditing: bool

    constructor ()
      ensures !isEditing
    {
      isEditing := false;
    }

    /** The menu while editing, the label otherwise. */
    function View(editable: bool): (v: WidthView)
      reads this
      ensures v.Menu? <==> isEditing
      ensures v.Label? ==> v.editable == editable
    {
      if isEditing then Menu else Label(editable)
    }

    /** Clicking the label starts editing when the width is editable, and otherwise changes nothing. */
    method HandleClickLabel(editable: bool)
      modifies this
      ensures editable ==> isEditing
      ensures !editable ==> isEditing == old(isEditing)
    {
      if editable {
        isEditing := true;
      }
    }

    /** Choosing a menu entry always stops editing, and then carries out the entry's effects. */
    method HandleChangeMenuSelection(value: string, street: Street, values: MenuValues, helpers: Helpers,
                                     answer: Option<string>) returns (effects: seq<Effect>)
      modifies this
      ensures !isEditing
      ensures effects == MenuEffects(ParseInt(value), street, values, helpers, answer)
    {
      isEditing := false;
      var units, width, occupiedWidth := street.units, street.width, street.occupiedWidth;
      var selection := ParseInt(value);
      effects := [];
      if selection == Int(values.switchToMetric) {
        effects := effects + [UpdateUnits(Metric)];
      } else if selection == Int(values.switchToImperial) {
        effects := effects + [UpdateUnits(Imperial)];
      } else if selection == Int(values.custom) {
        var promptValue := helpers.normalizeStreetWidth(occupiedWidth, units);
        effects := effects + [PromptForWidth(helpers.prettifyWidth(promptValue, units))];
        if answer.Some? && answer.value != "" {
          var newWidth := helpers.normalizeStreetWidth(helpers.processWidthInput(answer.value, units), units);
          effects := effects + [UpdateStreetWidth(newWidth)];
        }
      } else if selection.Int? && selection.n as real == width {
      } else if selection.Int? && selection.n != 0 {
        effects := effects + [UpdateStreetWidth(selection.n as real)];
      }
    }
  }

  /** On a read-only street a click on the label never opens the menu. */
  method ClickOnReadOnlyStreet(editStreetWidthFlag: bool)
  {
    var c := new StreetMetaWidthContainer();
    c.HandleClickLabel(Editable(true, editStreetWidthFlag));
    assert c.View(Editable(true, editStreetWidthFlag)) == Label(false);
  }
}
