/**
 The interaction boost of power/power-helper.c: a hint is skipped if the boost before it lasts longer
 anyway.  The times are nanoseconds, the durations milliseconds, and the comparison is in
 microseconds, rounded.
 */
module Boost {
  import opened Wrappers

  datatype Timespec = Timespec(sec: int, nsec: int) {
    function Nanos(): int { sec * 1_000_000_000 + nsec }
  }

  const USINSEC := 1_000_000
  const NSINUS := 1_000

  // The source's division, which truncates toward zero.
  function Truncated(a: int, b: int): int
    requires b > 0
  {
    if a >= 0 then a / b else -(-a / b)
  }

  function CalcTimespanUs(start: Timespec, end: Timespec): int {
    (end.sec - start.sec) * USINSEC + Truncated(end.nsec - start.nsec, NSINUS)
  }

  // The rounding is by less than a microsecond, in either direction.
  lemma TimespanIsClose(start: Timespec, end: Timespec)
    ensures var error := 1000 * CalcTimespanUs(start, end) - (end.Nanos() - start.Nanos());
      -1000 < error < 1000
  {
  }

  // When the boost of this start and duration in milliseconds ends.
  function End(start: Timespec, duration: int): int { start.Nanos() + duration * 1_000_000 }

  // What was recorded of the last boost.
  datatype State = State(previous: Timespec, duration: int)

  const INIT := State(Timespec(0, 0), 0)

  // A hint: `ready` if the scaling governor can be read and no mode is on; `data` is the duration
  // it may bring.
  datatype Hint = Hint(ready: bool, data: Option<int>, now: Timespec)

  function Duration(data: Option<int>): (d: int)
    ensures 1500 <= d <= 5750
    ensures data.Some? && 750 <= data.value <= 5000 ==> d == data.value + 750
    ensures data.None? || data.value < 750 ==> d == 1500
    ensures data.Some? && data.value > 5000 ==> d == 5750
  {
    if data.Some? && data.value + 750 > 1500 then
      if data.value + 750 > 5750 then 5750 else data.value + 750
    else 1500
  }

  function WindowEnd(h: Hint): int { End(h.now, Duration(h.data)) }

  predicate Skips(s: State, h: Hint) {
    s.duration * 1000 > CalcTimespanUs(s.previous, h.now) + Duration(h.data) * 1000
  }

  predicate Accepts(s: State, h: Hint) { h.ready && !Skips(s, h) }

  function Step(s: State, h: Hint): State {
    if Accepts(s, h) then State(h.now, Duration(h.data)) else s
  }

  function RecordedEnd(s: State): int { End(s.previous, s.duration) }

  // Despite the rounding, a hint that is skipped would have ended before the boost that is
  // recorded, and one that would have ended a microsecond before it is skipped.
  lemma SkipIsSafe(s: State, h: Hint)
    ensures Skips(s, h) ==> WindowEnd(h) < RecordedEnd(s)
    ensures WindowEnd(h) + 1000 <= RecordedEnd(s) ==> Skips(s, h)
  {
  }

  // So a hint moves the recorded end back by less than a microsecond, if at all, and only if it is
  // accepted; and then the recorded boost covers the hint.
  lemma StepCovers(s: State, h: Hint)
    ensures RecordedEnd(Step(s, h)) > RecordedEnd(s) - 1000
    ensures !Accepts(s, h) ==> RecordedEnd(Step(s, h)) == RecordedEnd(s)
    ensures h.ready ==> RecordedEnd(Step(s, h)) >= WindowEnd(h)
  {
  }

  ghost function After(run: seq<Hint>, k: nat): State
    requires k <= |run|
  {
    if k == 0 then INIT else Step(After(run, k - 1), run[k - 1])
  }

  // How many of the hints from j up to k are accepted.
  ghost function Accepted(run: seq<Hint>, j: nat, k: nat): nat
    requires j <= k <= |run|
  {
    if j == k then 0 else Accepted(run, j, k - 1) + if Accepts(After(run, k - 1), run[k - 1]) then 1 else 0
  }

  // In every run, the boost recorded at the end covers the window of each hint so far, up to a
  // microsecond for each hint accepted since.
  lemma {:induction false} RecordedBoostCovers(run: seq<Hint>, j: nat, k: nat)
    requires j < k <= |run| && run[j].ready
    ensures RecordedEnd(After(run, k)) + 1000 * Accepted(run, j + 1, k) >= WindowEnd(run[j])
    ensures Accepted(run, j + 1, k) > 0 ==>
      RecordedEnd(After(run, k)) + 1000 * Accepted(run, j + 1, k) > WindowEnd(run[j])
  {
    hide Accepts, Step, WindowEnd, RecordedEnd;
    StepCovers(After(run, k - 1), run[k - 1]);
    if j + 1 < k {
      RecordedBoostCovers(run, j, k - 1);
    }
  }

  // A hint that ends later than the recorded boost is accepted, and starts a boost of its own length.
  lemma LaterHintIsAccepted(s: State, h: Hint)
    requires h.ready && WindowEnd(h) >= RecordedEnd(s)
    ensures Accepts(s, h) && RecordedEnd(Step(s, h)) == WindowEnd(h)
  {
  }

  // The rounding does cost something.  A hint cuts the recorded boost short exactly if it would end
  // less than a microsecond before it, and its clock shows fewer nanoseconds of the second.
  predicate Shortens(s: State, h: Hint) { Accepts(s, h) && RecordedEnd(Step(s, h)) < RecordedEnd(s) }

  predicate Straddles(s: State, h: Hint) {
    h.ready && h.now.nsec < s.previous.nsec && 0 < RecordedEnd(s) - WindowEnd(h) < 1000
  }

  lemma ShortensIff(s: State, h: Hint)
    ensures Shortens(s, h) <==> Straddles(s, h)
    ensures RecordedEnd(Step(s, h)) < RecordedEnd(s) ==> Straddles(s, h)
  {
  }

  ghost function EndAt(run: seq<Hint>, k: nat): int
    requires k <= |run|
  {
    RecordedEnd(After(run, k))
  }

  ghost predicate MovesBack(run: seq<Hint>, j: nat)
    requires j < |run|
  {
    EndAt(run, j + 1) < EndAt(run, j)
  }

  ghost predicate StraddlesAt(run: seq<Hint>, j: nat)
    requires j < |run|
  {
    Straddles(After(run, j), run[j])
  }

  // So in every run, the recorded end moves back just at the hints that straddle it so; and from
  // a hint on, as long as there is none, the recorded boost covers it in full.
  lemma EndMovesBackIff(run: seq<Hint>, j: nat)
    requires j < |run|
    ensures MovesBack(run, j) <==> StraddlesAt(run, j)
  {
    ShortensIff(After(run, j), run[j]);
    hide Straddles;
  }

  lemma {:induction false} CoversInFull(run: seq<Hint>, j: nat, k: nat)
    requires j < k <= |run| && run[j].ready
    requires forall l :: j < l < k ==> !StraddlesAt(run, l)
    ensures EndAt(run, k) >= WindowEnd(run[j])
  {
    hide Accepts, Step, WindowEnd, StraddlesAt;
    StepCovers(After(run, k - 1), run[k - 1]);
    if j + 1 < k {
      CoversInFull(run, j, k - 1);
      EndMovesBackIff(run, k - 1);
    }
  }

  lemma AcceptedHintCanShorten()
    ensures var (a, b) := (Hint(true, Some(5000), Timespec(10, 999)), Hint(true, Some(4000), Timespec(11, 0)));
      Accepts(Step(INIT, a), b) && RecordedEnd(Step(Step(INIT, a), b)) == RecordedEnd(Step(INIT, a)) - 999
  {
  }

  /* ---------- the source's object ---------- */

  class Interaction {
    var previousBoostTimespec: Timespec
    var previousDuration: int

    ghost function View(): State
      reads this
    {
      State(previousBoostTimespec, previousDuration)
    }

    constructor ()
      ensures View() == INIT
    {
      previousBoostTimespec, previousDuration := Timespec(0, 0), 0;
    }

    // Returns the duration of the boost to start.
    method PowerHint(governor: bool, modes: bool, data: Option<int>, now: Timespec)
      returns (boost: Option<int>)
      modifies this
      ensures var h := Hint(governor && !modes, data, now);
        && View() == Step(old(View()), h)
        && boost == (if Accepts(old(View()), h) then Some(View().duration) else None)
        && (boost.Some? ==> RecordedEnd(View()) == now.Nanos() + boost.value * 1_000_000)
    {
      if !governor || modes {
        return None;
      }
      var duration := 1500;
      if data.Some? {
        var inputDuration := data.value + 750;
        if inputDuration > duration {
          duration := if inputDuration > 5750 then 5750 else inputDuration;
        }
      }
      var elapsed := CalcTimespanUs(previousBoostTimespec, now);
      if previousDuration * 1000 > elapsed + duration * 1000 {
        return None;
      }
      previousBoostTimespec, previousDuration := now, duration;
      boost := Some(duration);
    }
  }
}
