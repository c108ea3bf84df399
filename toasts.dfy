/**
 * The toast container: transient notifications that are published into a
 * list, animated in, kept on screen for the display timeout and animated out.
 * The timeout is a timed step animating a `life` value that is never
 * displayed.
 *
 * The animation library's continuous springs are abstracted into discrete
 * steps.  An item's transition goes through
 *   enter: size step, fade-in step; rest (the item is dropped from `items`);
 *   leave: life step (a delay of `timeout`), fade-out step, collapse step; rest (the transition ends).
 * Dropping the item from `items` when its enter transition rests is what
 * starts its leave transition.
 */
module Toasts {
  import opened Wrappers

  // ----------------------------------------------------------------------
  // Records

  /** A payload handed to the publish callback; `None` is an absent field. */
  datatype Payload = Payload(key: Option<int>, toastType: Option<string>, title: Option<string>,
                             message: Option<string>, action: Option<string>)

  /** A queued toast: the payload's fields plus a `key`. */
  datatype Record = Record(key: int, toastType: Option<string>, title: Option<string>,
                           message: Option<string>, action: Option<string>)

  /**
   * The record `{ key: counter, ...payload }`.  The payload is spread after
   * `key`, so a payload that carries its own key overrides the counter.
   */
  function MakeRecord(counter: int, p: Payload): (r: Record)
    ensures p.key.None? ==> r.key == counter
    ensures p.key.Some? ==> r.key == p.key.value
    ensures r.toastType == p.toastType && r.title == p.title
    ensures r.message == p.message && r.action == p.action
  {
    Record(p.key.GetOr(counter), p.toastType, p.title, p.message, p.action)
  }

  // ----------------------------------------------------------------------
  // Timing configuration

  datatype SpringConfig = SpringConfig(tension: real, friction: real, precision: real)

  const TOAST_SPRING_CONFIG := SpringConfig(488.0, 36.0, 0.01)
  const TOAST_DISPLAY_TIMEOUT := 12000

  /** How one animation step is timed: a fixed duration in ms, or a spring. */
  datatype StepConfig = Duration(ms: int) | Spring(spring: SpringConfig)

  datatype TransitionState = Enter | Leave

  /** A configuration for a whole transition: one per step, or one for all steps. */
  datatype TransitionConfig = PerStep(steps: seq<StepConfig>) | AllSteps(step: StepConfig)

  /** The `config` callback: leave is timed step by step, every other transition by the spring. */
  function ConfigFor(state: TransitionState, config: SpringConfig, timeout: int): TransitionConfig {
    if state == Leave then PerStep([Duration(timeout), Spring(config), Spring(config)])
    else AllSteps(Spring(config))
  }

  // ----------------------------------------------------------------------
  // The discrete lifecycle of one transition

  datatype Phase = EnterSize | EnterFade | Entered | LeaveLife | LeaveFade | LeaveCollapse

  predicate IsEntering(p: Phase) { p == EnterSize || p == EnterFade }

  predicate IsLeaving(p: Phase) { p == LeaveLife || p == LeaveFade || p == LeaveCollapse }

  /** Position of a phase in the lifecycle. */
  function Rank(p: Phase): nat {
    match p
    case EnterSize => 0
    case EnterFade => 1
    case Entered => 2
    case LeaveLife => 3
    case LeaveFade => 4
    case LeaveCollapse => 5
  }

  /** The phase that follows `p` once its step finishes; `None` when the transition ends. */
  function Next(p: Phase): (r: Option<Phase>)
    ensures r.None? <==> p == LeaveCollapse
    ensures r.Some? ==> Rank(r.value) == Rank(p) + 1
  {
    match p
    case EnterSize => Some(EnterFade)
    case EnterFade => Some(Entered)
    case Entered => Some(LeaveLife)
    case LeaveLife => Some(LeaveFade)
    case LeaveFade => Some(LeaveCollapse)
    case LeaveCollapse => None
  }

  /** Every phase a transition passes through from `p` on, in order. */
  function Trace(p: Phase): seq<Phase>
    decreases 5 - Rank(p)
  {
    match Next(p)
    case None => [p]
    case Some(q) => [p] + Trace(q)
  }

  const EnterSteps := [EnterSize, EnterFade]
  const LeaveSteps := [LeaveLife, LeaveFade, LeaveCollapse]

  /** A new transition runs the two enter steps, rests, then runs the three leave steps in order. */
  lemma Lifecycle()
    ensures Trace(EnterSize) == EnterSteps + [Entered] + LeaveSteps
  {
  }

  /** The transition and step index an animated phase runs; `Entered` animates nothing. */
  function StepOf(p: Phase): Option<(TransitionState, nat)> {
    match p
    case EnterSize => Some((Enter, 0))
    case EnterFade => Some((Enter, 1))
    case Entered => None
    case LeaveLife => Some((Leave, 0))
    case LeaveFade => Some((Leave, 1))
    case LeaveCollapse => Some((Leave, 2))
  }

  /** The timing of the step that phase `p` runs. */
  function StepConfigOf(p: Phase, config: SpringConfig, timeout: int): Option<StepConfig> {
    match StepOf(p)
    case None => None
    case Some((state, i)) =>
      match ConfigFor(state, config, timeout)
      case AllSteps(c) => Some(c)
      case PerStep(cs) => if i < |cs| then Some(cs[i]) else None
  }

  /** The life step lasts the display timeout; every other step follows the spring. */
  lemma StepTiming(config: SpringConfig, timeout: int)
    ensures StepConfigOf(LeaveLife, config, timeout) == Some(Duration(timeout))
    ensures forall p :: StepOf(p).Some? && p != LeaveLife ==>
      StepConfigOf(p, config, timeout) == Some(Spring(config))
    ensures StepConfigOf(Entered, config, timeout) == None
  {
  }

  // ----------------------------------------------------------------------
  // Animated style

  datatype Prop = Opacity | Height | Width | Life | Transform | MarginTop

  /** A style value; the measured size of the toast's rendered content is left symbolic. */
  datatype Value = Num(n: real) | Css(text: string) | ContentWidth | ContentHeight

  /** The style a new transition starts from. */
  function FromStyle(): map<Prop, Value> {
    map[Opacity := Num(0.0), Height := Num(0.0), Life := Css("100%"),
        Transform := Css("translateX(300px)"), MarginTop := Css("10px")]
  }

  /** The style properties the step of phase `p` animates, and their targets. */
  function Target(p: Phase): map<Prop, Value> {
    match p
    case EnterSize => map[Width := ContentWidth, Height := ContentHeight]
    case EnterFade => map[Opacity := Num(1.0), Transform := Css("translateX(0px)")]
    case Entered => map[]
    case LeaveLife => map[Life := Css("0%")]
    case LeaveFade => map[Opacity := Num(0.0), Transform := Css("translateX(300px)")]
    case LeaveCollapse => map[Height := Num(0.0), MarginTop := Css("0px")]
  }

  /** The style after running the steps of `steps` in order from `style`. */
  function Run(style: map<Prop, Value>, steps: seq<Phase>): map<Prop, Value>
    decreases |steps|
  {
    if steps == [] then style else Run(style + Target(steps[0]), steps[1..])
  }

  /** Enter brings the toast to its measured size, fully opaque and in place. */
  lemma EnterEndsShown()
    ensures Run(FromStyle(), EnterSteps) ==
      map[Opacity := Num(1.0), Height := ContentHeight, Width := ContentWidth, Life := Css("100%"),
          Transform := Css("translateX(0px)"), MarginTop := Css("10px")]
  {
  }

  /** Whatever style leave starts from, it ends with `life` at 0%, invisible, off to the side and collapsed. */
  lemma LeaveEndsCollapsed(style: map<Prop, Value>)
    ensures var s := Run(style, LeaveSteps);
      s.Keys == style.Keys + {Life, Opacity, Transform, Height, MarginTop} &&
      s[Life] == Css("0%") && s[Opacity] == Num(0.0) && s[Transform] == Css("translateX(300px)") &&
      s[Height] == Num(0.0) && s[MarginTop] == Css("0px")
  {
  }

  // ----------------------------------------------------------------------
  // The list of items and its invariants

  /** `items.filter(i => i.key !== k)`. */
  function WithoutKey(s: seq<Record>, k: int): (r: seq<Record>)
    ensures |r| <= |s|
    ensures forall x :: x in r <==> x in s && x.key != k
    ensures (forall i :: 0 <= i < |s| ==> s[i].key != k) ==> r == s
  {
    if s == [] then []
    else if s[0].key == k then WithoutKey(s[1..], k)
    else [s[0]] + WithoutKey(s[1..], k)
  }

  /** Removal works piecewise, so the items kept stay in their original relative order. */
  lemma {:induction false} WithoutKeyConcat(a: seq<Record>, b: seq<Record>, k: int)
    ensures WithoutKey(a + b, k) == WithoutKey(a, k) + WithoutKey(b, k)
  {
    if a == [] {
      assert a + b == b;
    } else {
      assert (a + b)[0] == a[0];
      assert (a + b)[1..] == a[1..] + b;
      WithoutKeyConcat(a[1..], b, k);
    }
  }

  /** Removing the key of an item whose neighbours have other keys leaves exactly the neighbours, in order. */
  lemma WithoutMiddle(a: seq<Record>, x: Record, b: seq<Record>)
    requires forall i :: 0 <= i < |a| ==> a[i].key != x.key
    requires forall i :: 0 <= i < |b| ==> b[i].key != x.key
    ensures WithoutKey(a + [x] + b, x.key) == a + b
  {
    var k, ax := x.key, a + [x];
    WithoutKeyConcat(ax, b, k);
    assert WithoutKey(a + [x] + b, k) == WithoutKey(ax, k) + WithoutKey(b, k);
    WithoutKeyConcat(a, [x], k);
    assert [x][1..] == [] && WithoutKey([x], k) == [];
    assert WithoutKey(ax, k) == a;
  }

  /** Dropping the middle one of three records with distinct keys. */
  lemma DropSecondOfThree(a: Record, b: Record, c: Record)
    requires a.key != b.key && c.key != b.key
    ensures WithoutKey([a, b, c], b.key) == [a, c]
  {
    assert [a, b, c] == [a] + [b] + [c];
    WithoutMiddle([a], b, [c]);
  }

  /** Removing a key twice is the same as removing it once. */
  lemma WithoutKeyIdempotent(s: seq<Record>, k: int)
    ensures WithoutKey(WithoutKey(s, k), k) == WithoutKey(s, k)
  {
    var r := WithoutKey(s, k);
    forall i | 0 <= i < |r| ensures r[i].key != k {
      assert r[i] in r;
    }
  }

  /** Keys strictly increase along `s` and all lie below `bound`. */
  predicate KeysIncreasingBelow(s: seq<Record>, bound: int) {
    (forall i, j :: 0 <= i < j < |s| ==> s[i].key < s[j].key) &&
    (forall i :: 0 <= i < |s| ==> s[i].key < bound)
  }

  /** Increasing keys are distinct keys. */
  lemma IncreasingKeysDistinct(s: seq<Record>, bound: int)
    requires KeysIncreasingBelow(s, bound)
    ensures forall i, j :: 0 <= i < |s| && 0 <= j < |s| && i != j ==> s[i].key != s[j].key
  {
    forall i, j | 0 <= i < |s| && 0 <= j < |s| && i != j ensures s[i].key != s[j].key {
      if i < j { assert s[i].key < s[j].key; } else { assert s[j].key < s[i].key; }
    }
  }

  /** Appending a record keyed with the counter keeps keys increasing below the next counter. */
  lemma AppendKeepsOrder(s: seq<Record>, r: Record, n: int)
    requires KeysIncreasingBelow(s, n) && r.key == n
    ensures KeysIncreasingBelow(s + [r], n + 1)
  {
    var t := s + [r];
    forall i, j | 0 <= i < j < |t| ensures t[i].key < t[j].key {
      if j < |s| { assert t[i] == s[i] && t[j] == s[j]; } else { assert t[i] == s[i]; }
    }
  }

  /** The tail of an increasing list is increasing, and its keys lie above the head's. */
  lemma TailIncreasing(s: seq<Record>, n: int)
    requires s != [] && KeysIncreasingBelow(s, n)
    ensures KeysIncreasingBelow(s[1..], n)
    ensures forall y :: y in s[1..] ==> s[0].key < y.key
  {
    var t := s[1..];
    forall i, j | 0 <= i < j < |t| ensures t[i].key < t[j].key {
      assert t[i] == s[i + 1] && t[j] == s[j + 1];
    }
    forall i | 0 <= i < |t| ensures t[i].key < n {
      assert t[i] == s[i + 1];
    }
    forall y | y in t ensures s[0].key < y.key {
      var j :| 0 <= j < |t| && t[j] == y;
      assert s[j + 1] == y;
    }
  }

  /** A head below every key of an increasing list gives an increasing list. */
  lemma ConsIncreasing(x: Record, w: seq<Record>, n: int)
    requires KeysIncreasingBelow(w, n) && x.key < n
    requires forall y :: y in w ==> x.key < y.key
    ensures KeysIncreasingBelow([x] + w, n)
  {
    var r := [x] + w;
    forall i, j | 0 <= i < j < |r| ensures r[i].key < r[j].key {
      if i == 0 { assert r[j] == w[j - 1] && r[j] in w; } else { assert r[i] == w[i - 1] && r[j] == w[j - 1]; }
    }
    forall i | 0 <= i < |r| ensures r[i].key < n {
      if i > 0 { assert r[i] == w[i - 1]; }
    }
  }

  /** Removal keeps keys increasing. */
  lemma {:induction false} WithoutKeyKeepsOrder(s: seq<Record>, k: int, n: int)
    requires KeysIncreasingBelow(s, n)
    ensures KeysIncreasingBelow(WithoutKey(s, k), n)
  {
    if s != [] {
      TailIncreasing(s, n);
      WithoutKeyKeepsOrder(s[1..], k, n);
      if s[0].key != k {
        ConsIncreasing(s[0], WithoutKey(s[1..], k), n);
      }
    }
  }

  // ----------------------------------------------------------------------
  // The container

  class ToastContainer {
    /** The counter handing out keys. */
    var nextId: nat
    /** The published toasts whose enter transition has not yet come to rest. */
    var items: seq<Record>
    /** The live transitions, entering or leaving, by key. */
    var phase: map<int, Phase>
    /** The keys whose leave transition has recorded a cancel handle. */
    var cancelRegistered: set<int>
    const config: SpringConfig
    const timeout: int
    /** Every key the counter has handed out. */
    ghost var issued: set<int>

    ghost predicate Valid()
      reads this
    {
      (forall r :: r in items ==> r.key in phase && IsEntering(phase[r.key])) &&
      cancelRegistered <= phase.Keys &&
      (forall k :: k in phase ==> (k in cancelRegistered <==> IsLeaving(phase[k]))) &&
      (forall n :: n in issued ==> n < nextId)
    }

    /** Keys of queued items strictly increase and are all below the counter. */
    ghost predicate Ordered()
      reads this
    {
      KeysIncreasingBelow(items, nextId)
    }

    /** A container; `None` is a timing prop not supplied (`undefined`), which falls back to its default. */
    constructor (config: Option<SpringConfig>, timeout: Option<int>)
      ensures Valid() && Ordered()
      ensures this.config == config.GetOr(TOAST_SPRING_CONFIG)
      ensures this.timeout == timeout.GetOr(TOAST_DISPLAY_TIMEOUT)
      ensures nextId == 0 && items == [] && phase == map[] && cancelRegistered == {}
    {
      this.config := config.GetOr(TOAST_SPRING_CONFIG);
      this.timeout := timeout.GetOr(TOAST_DISPLAY_TIMEOUT);
      nextId := 0;
      items := [];
      phase := map[];
      cancelRegistered := {};
      issued := {};
    }

    /**
     * The publish callback: the record takes the counter's value as key
     * (unless the payload carries one), the counter moves on, the record is
     * appended at the tail and its transition starts entering.
     */
    method Publish(p: Payload)
      requires Valid()
      modifies this
      ensures Valid()
      ensures nextId == old(nextId) + 1 && old(nextId) !in old(issued) && issued == old(issued) + {old(nextId)}
      ensures items == old(items) + [MakeRecord(old(nextId), p)]
      ensures phase == old(phase)[MakeRecord(old(nextId), p).key := EnterSize]
      ensures cancelRegistered == old(cancelRegistered) - {MakeRecord(old(nextId), p).key}
      ensures p.key.None? && old(Ordered()) ==> Ordered()
    {
      var r := MakeRecord(nextId, p);
      if p.key.None? && Ordered() {
        AppendKeepsOrder(items, r, nextId);
      }
      items := items + [r];
      issued := issued + {nextId};
      nextId := nextId + 1;
      phase := phase[r.key := EnterSize];
      cancelRegistered := cancelRegistered - {r.key};
    }

    /** The `onRest` handler: drop every item keyed `k`, keeping the rest in order. */
    method OnRest(k: int)
      requires Valid()
      modifies this`items
      ensures Valid()
      ensures items == WithoutKey(old(items), k)
      ensures old(Ordered()) ==> Ordered()
    {
      if Ordered() {
        WithoutKeyKeepsOrder(items, k, nextId);
      }
      items := WithoutKey(items, k);
    }

    /**
     * The step that transition `k` is running finishes and the next begins.
     * When enter rests the item is dropped from `items`, which starts its leave
     * transition; the leave records its cancel handle first.  When leave rests,
     * `onRest` runs again (it finds nothing to drop) and the transition ends.
     */
    method Advance(k: int)
      requires Valid()
      modifies this
      ensures Valid()
      ensures nextId == old(nextId) && issued == old(issued)
      ensures k !in old(phase) ==>
        items == old(items) && phase == old(phase) && cancelRegistered == old(cancelRegistered)
      ensures k in old(phase) && Next(old(phase)[k]).Some? ==> phase == old(phase)[k := Next(old(phase)[k]).value]
      ensures k in old(phase) && Next(old(phase)[k]).None? ==> phase == old(phase) - {k}
      ensures k in old(phase) && old(phase)[k] == EnterFade ==> items == WithoutKey(old(items), k)
      ensures k in old(phase) && old(phase)[k] != EnterFade ==> items == old(items)
      ensures k in old(phase) && old(phase)[k] == Entered ==> cancelRegistered == old(cancelRegistered) + {k}
      ensures k in old(phase) && old(phase)[k] == LeaveCollapse ==> cancelRegistered == old(cancelRegistered) - {k}
      ensures k in old(phase) && old(phase)[k] != Entered && old(phase)[k] != LeaveCollapse ==>
        cancelRegistered == old(cancelRegistered)
      ensures old(Ordered()) ==> Ordered()
    {
      if k in phase {
        match phase[k]
        case EnterSize =>
          phase := phase[k := EnterFade];
        case EnterFade =>
          OnRest(k);
          phase := phase[k := Entered];
        case Entered =>
          cancelRegistered := cancelRegistered + {k};
          phase := phase[k := LeaveLife];
        case LeaveLife =>
          phase := phase[k := LeaveFade];
        case LeaveFade =>
          phase := phase[k := LeaveCollapse];
        case LeaveCollapse =>
          forall i | 0 <= i < |items| ensures items[i].key != k {
            assert items[i] in items;
          }
          OnRest(k);
          phase := phase - {k};
          cancelRegistered := cancelRegistered - {k};
      }
    }

    /**
     * The close button: call `k`'s cancel handle if its leave recorded one,
     * which abandons the rest of the leave and ends the transition.  Before
     * the leave has started there is no handle and nothing changes.
     */
    method Close(k: int)
      requires Valid()
      modifies this
      ensures Valid()
      ensures items == old(items) && nextId == old(nextId) && issued == old(issued)
      ensures k in old(cancelRegistered) <==> k in old(phase) && IsLeaving(old(phase)[k])
      ensures k in old(cancelRegistered) ==>
        phase == old(phase) - {k} && cancelRegistered == old(cancelRegistered) - {k}
      ensures k !in old(cancelRegistered) ==>
        phase == old(phase) && cancelRegistered == old(cancelRegistered)
      ensures old(Ordered()) ==> Ordered()
    {
      if k in cancelRegistered {
        phase := phase - {k};
        cancelRegistered := cancelRegistered - {k};
      }
    }
  }

  /** Three toasts published in a row; the middle one's enter comes to rest first. */
  method DismissMiddle(a: Payload, b: Payload, c: Payload)
    requires a.key.None? && b.key.None? && c.key.None?
  {
    var q := new ToastContainer(None, None);
    q.Publish(a);
    q.Publish(b);
    q.Publish(c);
    var ra, rb, rc := MakeRecord(0, a), MakeRecord(1, b), MakeRecord(2, c);
    assert q.items == [ra, rb, rc] && q.phase[1] == EnterSize;
    q.Close(1);
    assert q.items == [ra, rb, rc] && q.phase[1] == EnterSize;
    q.Advance(1);
    assert q.items == [ra, rb, rc] && q.phase[1] == EnterFade;
    q.Advance(1);
    assert q.items == WithoutKey([ra, rb, rc], rb.key);
    DropSecondOfThree(ra, rb, rc);
    assert q.items == [ra, rc];
  }

  // ----------------------------------------------------------------------
  // Rendering rule for one toast

  /** Joins `parts` with single spaces. */
  function JoinWithSpaces(parts: seq<string>): string {
    if parts == [] then ""
    else if |parts| == 1 then parts[0]
    else parts[0] + " " + JoinWithSpaces(parts[1..])
  }

  /** The class list: `toast`, plus `toast-<type>` when the type is set (a non-empty string). */
  function ClassNames(toastType: Option<string>): (r: seq<string>)
    ensures 1 <= |r| <= 2 && r[0] == "toast"
    ensures |r| == 2 <==> toastType.Some? && toastType.value != ""
    ensures |r| == 2 ==> r[1] == "toast-" + toastType.value
  {
    if toastType.Some? && toastType.value != "" then ["toast", "toast-" + toastType.value] else ["toast"]
  }

  /** The `className` attribute of a toast. */
  function ClassName(toastType: Option<string>): (r: string)
    ensures toastType.Some? && toastType.value != "" ==> r == "toast toast-" + toastType.value
    ensures toastType.None? || toastType.value == "" ==> r == "toast"
  {
    var parts := ClassNames(toastType);
    assert |parts| == 2 ==> parts[1..] == [parts[1]] && JoinWithSpaces(parts) == parts[0] + " " + parts[1];
    JoinWithSpaces(parts)
  }
}
