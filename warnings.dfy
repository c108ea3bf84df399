/**
 * The warnings shown in a segment's info bubble: up to three messages, one
 * per warning flag that is set, always in the same order.
 *
 * The positions of the three flags in the segment's `warnings` array are
 * constants of the street-width package, passed in here.  A message is
 * identified by its intl id, which also keys its paragraph.
 */
module Warnings {
  import opened Wrappers

  const DOES_NOT_FIT := "segments.warnings.does-not-fit"
  const NOT_WIDE := "segments.warnings.not-wide"
  const TOO_WIDE := "segments.warnings.too-wide"

  /** Where the three flags sit in the `warnings` array. */
  datatype WarningSlots = WarningSlots(outside: int, widthTooSmall: int, widthTooLarge: int)

  /** The truthiness of `warnings[i]`; outside the array the value is undefined, so falsy. */
  predicate Flag(warnings: seq<bool>, i: int) {
    0 <= i < |warnings| && warnings[i]
  }

  /** Every message the bubble can show, in display order, with whether its flag is set. */
  function Catalogue(warnings: seq<bool>, slots: WarningSlots): seq<(bool, string)> {
    [(Flag(warnings, slots.outside), DOES_NOT_FIT),
     (Flag(warnings, slots.widthTooSmall), NOT_WIDE),
     (Flag(warnings, slots.widthTooLarge), TOO_WIDE)]
  }

  /** The messages of the entries whose flag is set, in the entries' order. */
  function Shown(entries: seq<(bool, string)>): (r: seq<string>)
    ensures |r| <= |entries|
    ensures forall m :: m in r ==> exists i :: 0 <= i < |entries| && entries[i] == (true, m)
  {
    if entries == [] then []
    else if entries[0].0 then [entries[0].1] + Shown(entries[1..])
    else Shown(entries[1..])
  }

  /** What the bubble renders: the messages, or `None` (null) when there are none. */
  function RenderedMessages(warnings: seq<bool>, slots: WarningSlots): Option<seq<string>> {
    var m := Shown(Catalogue(warnings, slots));
    if m == [] then None else Some(m)
  }

  /** A message's place in the display order. */
  function DisplayRank(id: string): nat {
    if id == DOES_NOT_FIT then 0 else if id == NOT_WIDE then 1 else 2
  }

  /** The `warnings` prop; `None` is a prop not supplied (`undefined`), which defaults to the empty array. */
  function WarningsProp(warnings: Option<seq<bool>>): seq<bool> {
    warnings.GetOr([])
  }

  /**
   * `render`: push each flag's message in turn, then render the list when it
   * is not empty.  Each message appears exactly when its flag is set, in the
   * fixed order, so the ids keying the paragraphs are distinct.
   */
  method Render(warnings: seq<bool>, slots: WarningSlots) returns (r: Option<seq<string>>)
    ensures r == RenderedMessages(warnings, slots)
    ensures r.None? <==>
      !Flag(warnings, slots.outside) && !Flag(warnings, slots.widthTooSmall) && !Flag(warnings, slots.widthTooLarge)
    ensures r.Some? ==> 1 <= |r.value| <= 3
    ensures r.Some? ==> (DOES_NOT_FIT in r.value <==> Flag(warnings, slots.outside))
    ensures r.Some? ==> (NOT_WIDE in r.value <==> Flag(warnings, slots.widthTooSmall))
    ensures r.Some? ==> (TOO_WIDE in r.value <==> Flag(warnings, slots.widthTooLarge))
    ensures r.Some? ==> forall i, j :: 0 <= i < j < |r.value| ==> DisplayRank(r.value[i]) < DisplayRank(r.value[j])
  {
    var messages: seq<string> := [];
    if Flag(warnings, slots.outside) {
      messages := messages + [DOES_NOT_FIT];
    }
    assert messages == if Flag(warnings, slots.outside) then [DOES_NOT_FIT] else [];
    if Flag(warnings, slots.widthTooSmall) {
      messages := messages + [NOT_WIDE];
    }
    assert messages == (if Flag(warnings, slots.outside) then [DOES_NOT_FIT] else []) +
      (if Flag(warnings, slots.widthTooSmall) then [NOT_WIDE] else []);
    if Flag(warnings, slots.widthTooLarge) {
      messages := messages + [TOO_WIDE];
    }
    CatalogueShown(warnings, slots);
    assert messages == Shown(Catalogue(warnings, slots));
    IdsDistinct();
    if |messages| > 0 {
      r := Some(messages);
    } else {
      r := None;
    }
  }

  /** The catalogue's shown messages are the pushes of `render`, flag by flag. */
  lemma CatalogueShown(warnings: seq<bool>, slots: WarningSlots)
    ensures Shown(Catalogue(warnings, slots)) ==
      (if Flag(warnings, slots.outside) then [DOES_NOT_FIT] else []) +
      (if Flag(warnings, slots.widthTooSmall) then [NOT_WIDE] else []) +
      (if Flag(warnings, slots.widthTooLarge) then [TOO_WIDE] else [])
  {
    var c := Catalogue(warnings, slots);
    var c1, c2 := [c[1], c[2]], [c[2]];
    assert c2[1..] == [];
    assert Shown(c2) == if c[2].0 then [TOO_WIDE] else [];
    assert c1[1..] == c2;
    assert Shown(c1) == (if c[1].0 then [NOT_WIDE] else []) + Shown(c2);
    assert c[1..] == c1;
    assert Shown(c) == (if c[0].0 then [DOES_NOT_FIT] else []) + Shown(c1);
  }

  /** The three message ids differ. */
  lemma IdsDistinct()
    ensures DOES_NOT_FIT != NOT_WIDE && NOT_WIDE != TOO_WIDE && DOES_NOT_FIT != TOO_WIDE
  {
    assert DOES_NOT_FIT[18] == 'd' && NOT_WIDE[18] == 'n' && TOO_WIDE[18] == 't';
  }

  /** With no warnings given the bubble renders nothing. */
  lemma DefaultRendersNothing(slots: WarningSlots)
    ensures RenderedMessages(WarningsProp(None), slots) == None
  {
    assert WarningsProp(None) == [];
    CatalogueShown([], slots);
    assert Shown(Catalogue([], slots)) == [];
  }

  /** Distinct message ids: no id is shown twice. */
  lemma ShownDistinct(warnings: seq<bool>, slots: WarningSlots)
    ensures var m := Shown(Catalogue(warnings, slots));
      forall i, j :: 0 <= i < |m| && 0 <= j < |m| && i != j ==> m[i] != m[j]
  {
    CatalogueShown(warnings, slots);
    IdsDistinct();
  }
}
