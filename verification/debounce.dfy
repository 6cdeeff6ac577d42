/** The search box's debounce (the first effect of the search page): every
    change of the query cancels the pending timer and arms a new one; when a
    timer expires, the query current at that moment becomes the debounced
    query. Time is discrete, in milliseconds. */
module Debounce {
  import opened Common

  /** The quiescence window of the `setTimeout`. */
  const Delay: nat := 500

  /** `query`, `debouncedQuery`, and the milliseconds left on the pending
      timer (`None` when no timer is armed). */
  datatype Timer = Timer(query: string, debounced: string, remaining: Option<nat>)

  /** What a timer started at mount and driven by the operations below looks
      like: a pending timer has between 1 and `Delay` ms left, and with none
      pending the debounced query has caught up with the query. */
  predicate Valid(t: Timer) {
    match t.remaining
    case Some(ms) => 0 < ms <= Delay
    case None => t.debounced == t.query
  }

  /** The timer at mount: both queries empty. The effect also runs once on
      mount and would set `""` to `""`, which is not observable. */
  function Start(): (t: Timer)
    ensures Valid(t)
  {
    Timer("", "", None)
  }

  /** `setQuery(q)`. React re-runs the effect only when the value changes; then
      the old timer is cleared and a fresh one armed. */
  function SetQuery(t: Timer, q: string): (r: Timer)
    ensures r.query == q && r.debounced == t.debounced
    ensures q != t.query ==> r.remaining == Some(Delay)
    ensures q == t.query ==> r == t
    ensures Valid(t) ==> Valid(r)
  {
    if q == t.query then t else Timer(q, t.debounced, Some(Delay))
  }

  /** The timer after `ms` more milliseconds, and the value emitted if it fired. */
  datatype Tick = Tick(timer: Timer, fired: Option<string>)

  function Advance(t: Timer, ms: nat): (r: Tick)
    ensures r.timer.query == t.query
    ensures t.remaining.None? ==> r == Tick(t, None)
    ensures t.remaining.Some? ==> (r.fired.Some? <==> ms >= t.remaining.value)
    ensures r.fired.Some? ==> r.fired.value == t.query && r.timer.debounced == t.query && r.timer.remaining.None?
    ensures r.fired.None? ==> r.timer.debounced == t.debounced
    ensures t.remaining.Some? && ms < t.remaining.value ==>
              r.timer == t.(remaining := Some(t.remaining.value - ms))
    ensures Valid(t) ==> Valid(r.timer)
  {
    match t.remaining
    case None => Tick(t, None)
    case Some(left) =>
      if ms >= left then Tick(Timer(t.query, t.query, None), Some(t.query))
      else Tick(t.(remaining := Some(left - ms)), None)
  }

  /** A keystroke (the box's new value) or a pause. */
  datatype Input = Type(value: string) | Wait(ms: nat)

  /** The timer after a sequence of inputs, and every value it emitted, in order. */
  datatype Trace = Trace(timer: Timer, emitted: seq<string>)

  function Run(t: Timer, ins: seq<Input>): Trace
    decreases |ins|
  {
    if |ins| == 0 then Trace(t, [])
    else
      match ins[0]
      case Type(q) => Run(SetQuery(t, q), ins[1..])
      case Wait(ms) =>
        var tick := Advance(t, ms);
        var rest := Run(tick.timer, ins[1..]);
        Trace(rest.timer, (if tick.fired.Some? then [tick.fired.value] else []) + rest.emitted)
  }

  /** A burst: each value typed, followed by the pause after it. */
  function Burst(values: seq<string>, gaps: seq<nat>): (ins: seq<Input>)
    requires |values| == |gaps|
    ensures |ins| == 2 * |values|
  {
    if |values| == 0 then []
    else [Type(values[0]), Wait(gaps[0])] + Burst(values[1..], gaps[1..])
  }

  /** Each keystroke changes the box, and every pause but the last is shorter than the window. */
  predicate QuickEdits(from: string, values: seq<string>, gaps: seq<nat>) {
    && |values| == |gaps|
    && (forall k :: 0 < k < |values| ==> values[k] != values[k - 1])
    && (|values| > 0 ==> values[0] != from)
    && (forall k :: 0 <= k < |gaps| - 1 ==> gaps[k] < Delay)
  }

  /** A burst of edits with gaps under the window, followed by a pause of at
      least the window: the timer fires exactly once, carrying the final value;
      whatever timer was pending before the burst is cancelled by it. */
  lemma {:induction false} BurstEmitsOnce(t: Timer, values: seq<string>, gaps: seq<nat>)
    requires QuickEdits(t.query, values, gaps)
    requires |values| > 0 && gaps[|gaps| - 1] >= Delay
    ensures Run(t, Burst(values, gaps)) == Trace(Timer(values[|values| - 1], values[|values| - 1], None), [values[|values| - 1]])
    decreases |values|
  {
    var ins := Burst(values, gaps);
    var armed := SetQuery(t, values[0]);
    assert armed == Timer(values[0], t.debounced, Some(Delay));
    assert ins[0] == Type(values[0]) && ins[1..] == [Wait(gaps[0])] + Burst(values[1..], gaps[1..]);
    var tick := Advance(armed, gaps[0]);
    assert Run(t, ins) == Run(armed, ins[1..]);
    if |values| == 1 {
      assert tick == Tick(Timer(values[0], values[0], None), Some(values[0]));
      assert ins[1..][1..] == [];
      assert Run(tick.timer, []) == Trace(tick.timer, []);
      assert Run(armed, ins[1..]) == Trace(tick.timer, [values[0]] + []);
    } else {
      assert tick == Tick(Timer(values[0], t.debounced, Some(Delay - gaps[0])), None);
      assert ins[1..][1..] == Burst(values[1..], gaps[1..]);
      assert QuickEdits(tick.timer.query, values[1..], gaps[1..]) by {
        forall k | 0 < k < |values[1..]| ensures values[1..][k] != values[1..][k - 1] {
          assert values[1..][k] == values[k + 1] && values[1..][k - 1] == values[k];
        }
        assert values[1..][0] == values[1];
        forall k | 0 <= k < |gaps[1..]| - 1 ensures gaps[1..][k] < Delay {
          assert gaps[1..][k] == gaps[k + 1];
        }
      }
      BurstEmitsOnce(tick.timer, values[1..], gaps[1..]);
      var rest := Run(tick.timer, ins[1..][1..]);
      assert Run(armed, ins[1..]) == Trace(rest.timer, [] + rest.emitted);
      assert values[1..][|values[1..]| - 1] == values[|values| - 1];
    }
  }

  /** Pauses add up: a wait that does not fire, followed by another, is one
      wait of their total length. */
  lemma PausesAdd(t: Timer, a: nat, b: nat)
    requires Advance(t, a).fired.None?
    ensures Advance(Advance(t, a).timer, b) == Advance(t, a + b)
  {
  }

  /** A run of pauses with no keystroke in between. */
  function Pauses(ms: seq<nat>): (ins: seq<Input>)
    ensures |ins| == |ms|
  {
    if |ms| == 0 then [] else [Wait(ms[0])] + Pauses(ms[1..])
  }

  function Sum(ms: seq<nat>): nat {
    if |ms| == 0 then 0 else ms[0] + Sum(ms[1..])
  }

  /** Pauses totalling less than the time left only count the timer down. */
  lemma {:induction false} PausesCountDown(t: Timer, ms: seq<nat>)
    requires t.remaining.Some? && Sum(ms) < t.remaining.value
    ensures Run(t, Pauses(ms)) == Trace(t.(remaining := Some(t.remaining.value - Sum(ms))), [])
    decreases |ms|
  {
    if |ms| > 0 {
      var ins := Pauses(ms);
      assert ins[0] == Wait(ms[0]) && ins[1..] == Pauses(ms[1..]);
      var next := Advance(t, ms[0]).timer;
      PausesCountDown(next, ms[1..]);
      assert next.remaining.value - Sum(ms[1..]) == t.remaining.value - Sum(ms);
    }
  }

  /** Nothing is emitted before the window has passed: after a change, any
      pauses totalling less than the window emit nothing. */
  lemma ChangeThenShortPausesAreSilent(t: Timer, q: string, ms: seq<nat>)
    requires q != t.query && Sum(ms) < Delay
    ensures Run(t, [Type(q)] + Pauses(ms)).emitted == []
  {
    var ins := [Type(q)] + Pauses(ms);
    assert ins[0] == Type(q) && ins[1..] == Pauses(ms);
    PausesCountDown(SetQuery(t, q), ms);
  }
}
