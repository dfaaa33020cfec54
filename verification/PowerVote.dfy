/**
 Enabling and disabling GNSS: the modem power vote and the GPS lock of gps/gnss/GnssAdapter.cpp,
 and the session ids of gps/core/LocAdapterBase.cpp.
 */
module PowerVote {
  import opened Wrappers

  /* ---------- session ids ---------- */

  const MAX_ID := 0xFFFFFFFF

  // The counter, which is the id, in 32 bits; it starts at 1.
  function NextId(counter: nat): nat {
    var next := if counter == MAX_ID then 0 else counter + 1;
    if next == MAX_ID then 1 else next
  }

  function IdAfter(n: nat): nat {
    if n == 0 then 1 else NextId(IdAfter(n - 1))
  }

  lemma {:induction false} IdsInRange(n: nat)
    ensures 0 < IdAfter(n) < MAX_ID
  {
    if n > 0 {
      IdsInRange(n - 1);
    }
  }

  // The ids count up, and start over at 1 before the largest number of 32 bits.
  lemma {:induction false} IdsCountUp(i: nat, d: nat)
    requires d < MAX_ID
    ensures var id := IdAfter(i) + d; IdAfter(i + d) == if id < MAX_ID then id else id - (MAX_ID - 1)
  {
    IdsInRange(i);
    if d > 0 {
      IdsCountUp(i, d - 1);
    }
  }

  // An id is never zero, and comes again only after all the others.
  lemma IdsAreFresh(i: nat, j: nat)
    requires i < j < i + MAX_ID
    ensures 0 < IdAfter(i) < MAX_ID
    ensures IdAfter(i) == IdAfter(j) <==> j - i == MAX_ID - 1
  {
    IdsInRange(i);
    IdsCountUp(i, j - i);
  }

  /* ---------- votes and locks ---------- */

  // The lock as the configuration counts it, and the lock of the API, in the same four numbers.
  const LOCK_NONE := 0
  const LOCK_MO := 1
  const LOCK_NI := 2
  const LOCK_MO_AND_NI := 3

  // Both of convertGpsLock's overloads.
  function Convert(lock: int): int {
    if lock == LOCK_MO then 1 else if lock == LOCK_NI then 2 else if lock == LOCK_MO_AND_NI then 3 else 0
  }

  predicate ValidLock(lock: int) { LOCK_NONE <= lock <= LOCK_MO_AND_NI }

  // Converting there and back gives the lock again for the four locks, and only for these.
  lemma ConvertRoundTrip(lock: int)
    ensures Convert(Convert(lock)) == lock <==> ValidLock(lock)
    ensures ValidLock(Convert(lock))
  {
  }

  datatype Reply = Success | AlreadyStarted | IdUnknown | InvalidParameter | EngineError

  // `engineLock` and `xtraLock` are what the engine and the XTRA observer were told last.
  datatype State = State(voteId: nat, configLock: int, engineLock: Option<int>, xtraLock: Option<int>)

  // `ok` is the engine's answer to setGpsLock.
  datatype Event =
    | Enable(id: nat, gnss: bool, ok: bool)
    | Disable(id: nat, ok: bool)
    | UpdateLock(lock: int, ok: bool)

  function SetLock(s: State, lock: int, ok: bool): State {
    if ok then s.(engineLock := Some(lock)) else s
  }

  // The new state, the vote that is cast, and the reply.
  function Step(s: State, e: Event): (State, Option<bool>, Reply) {
    match e
    case Enable(id, gnss, ok) =>
      if !gnss then (s, None, InvalidParameter)
      else if s.voteId > 0 then (s, None, AlreadyStarted)
      else (SetLock(s.(voteId := id, xtraLock := Some(LOCK_NONE)), LOCK_NONE, ok), Some(true), Success)
    case Disable(id, ok) =>
      if s.voteId != id then (s, None, IdUnknown)
      else
        var lock := Convert(s.configLock);
        (SetLock(s.(voteId := 0, xtraLock := Some(lock)), lock, ok), Some(false), Success)
    case UpdateLock(lock, ok) =>
      var t := s.(configLock := Convert(lock));
      if s.voteId == 0 then (SetLock(t, lock, ok), None, if ok then Success else EngineError)
      else (t, None, Success)
  }

  /* ---------- the source's object ---------- */

  class GnssPower {
    var sessionIdCounter: nat
    var powerVoteId: nat
    var configLock: int
    var engineLock: Option<int>
    var xtraLock: Option<int>

    ghost function View(): State
      reads this
    {
      State(powerVoteId, configLock, engineLock, xtraLock)
    }

    constructor (configured: int)
      ensures View() == State(0, configured, None, None) && sessionIdCounter == IdAfter(0)
    {
      sessionIdCounter, powerVoteId, configLock, engineLock, xtraLock := 1, 0, configured, None, None;
    }

    method GenerateSessionId(ghost n: nat) returns (id: nat)
      requires sessionIdCounter == IdAfter(n)
      modifies this`sessionIdCounter
      ensures id == sessionIdCounter == IdAfter(n + 1)
      ensures 0 < id < MAX_ID
    {
      IdsInRange(n);
      IdsInRange(n + 1);
      sessionIdCounter := sessionIdCounter + 1;
      if sessionIdCounter == MAX_ID {
        sessionIdCounter := 1;
      }
      id := sessionIdCounter;
    }

    method EngineSetGpsLock(lock: int, ok: bool) returns (reply: Reply)
      modifies this`engineLock
      ensures View() == SetLock(old(View()), lock, ok) && reply == if ok then Success else EngineError
    {
      reply := if ok then Success else EngineError;
      if ok {
        engineLock := Some(lock);
      }
    }

    method EnableGnss(id: nat, gnss: bool, ok: bool) returns (vote: Option<bool>, reply: Reply)
      modifies this
      ensures (View(), vote, reply) == Step(old(View()), Enable(id, gnss, ok))
      ensures sessionIdCounter == old(sessionIdCounter)
    {
      vote := None;
      if !gnss {
        reply := InvalidParameter;
      } else if powerVoteId > 0 {
        reply := AlreadyStarted;
      } else {
        vote, reply := Some(true), Success;
        powerVoteId := id;
        var _ := EngineSetGpsLock(LOCK_NONE, ok);
        xtraLock := Some(Convert(LOCK_NONE));
      }
    }

    method DisableGnss(id: nat, ok: bool) returns (vote: Option<bool>, reply: Reply)
      modifies this
      ensures (View(), vote, reply) == Step(old(View()), Disable(id, ok))
      ensures sessionIdCounter == old(sessionIdCounter)
    {
      vote := None;
      if powerVoteId != id {
        reply := IdUnknown;
      } else {
        vote, reply := Some(false), Success;
        powerVoteId := 0;
        var _ := EngineSetGpsLock(Convert(configLock), ok);
        xtraLock := Some(Convert(configLock));
      }
    }

    method UpdateGpsLock(lock: int, ok: bool) returns (reply: Reply)
      modifies this
      ensures (View(), None, reply) == Step(old(View()), UpdateLock(lock, ok))
      ensures sessionIdCounter == old(sessionIdCounter)
    {
      reply := Success;
      configLock := Convert(lock);
      if powerVoteId == 0 {
        reply := EngineSetGpsLock(lock, ok);
      }
    }
  }

  /* ---------- votes ---------- */

  ghost function After(init: State, run: seq<Event>, k: nat): State
    requires k <= |run|
  {
    if k == 0 then init else Step(After(init, run, k - 1), run[k - 1]).0
  }

  // The votes of the first k messages.
  ghost function Votes(init: State, run: seq<Event>, k: nat): seq<bool>
    requires k <= |run|
  {
    if k == 0 then []
    else
      var vote := Step(After(init, run, k - 1), run[k - 1]).1;
      Votes(init, run, k - 1) + if vote.Some? then [vote.value] else []
  }

  // On, off, on, off ...
  ghost predicate Alternate(votes: seq<bool>) {
    forall i :: 0 <= i < |votes| ==> (votes[i] <==> i % 2 == 0)
  }

  // A disable that names id zero while nobody holds the vote.
  ghost predicate Stray(init: State, run: seq<Event>, k: nat)
    requires k < |run|
  {
    run[k] == Disable(0, run[k].ok) && After(init, run, k).voteId == 0
  }

  lemma AlternateMore(votes: seq<bool>, v: bool)
    ensures Alternate(votes + [v]) <==> Alternate(votes) && (v <==> |votes| % 2 == 0)
  {
    var more := votes + [v];
    assert more[|votes|] == v;
    assert forall i :: 0 <= i < |votes| ==> more[i] == votes[i];
  }

  // The power vote is switched on and off in turn exactly as long as there has been no stray
  // disable; and then it is on exactly while its id is set.
  lemma {:induction false} VotesAlternateIff(init: State, run: seq<Event>, k: nat)
    requires k <= |run| && init.voteId == 0
    requires forall i :: 0 <= i < k && run[i].Enable? ==> run[i].id > 0
    ensures Alternate(Votes(init, run, k)) <==> forall i :: 0 <= i < k ==> !Stray(init, run, i)
    ensures Alternate(Votes(init, run, k)) ==>
      (After(init, run, k).voteId > 0 <==> |Votes(init, run, k)| % 2 == 1)
  {
    if k > 0 {
      VotesAlternateIff(init, run, k - 1);
      var s := After(init, run, k - 1);
      var vote := Step(s, run[k - 1]).1;
      var votes := Votes(init, run, k - 1);
      if vote.Some? {
        AlternateMore(votes, vote.value);
        assert Votes(init, run, k) == votes + [vote.value];
      } else {
        assert Votes(init, run, k) == votes;
      }
      assert Stray(init, run, k - 1) ==> vote == Some(false) && s.voteId == 0;
    }
    hide Alternate;
  }

  // Who holds the vote: the last enable that succeeded, until its own disable.
  ghost predicate Holds(init: State, run: seq<Event>, i: nat, k: nat)
    requires i < k <= |run|
  {
    run[i].Enable? && Step(After(init, run, i), run[i]).2 == Success &&
    forall j :: i < j < k ==> !(run[j].Disable? && run[j].id == run[i].id)
  }

  lemma {:induction false} HolderKeepsVote(init: State, run: seq<Event>, i: nat, k: nat)
    requires i < k <= |run| && Holds(init, run, i, k) && run[i].id > 0
    ensures After(init, run, k).voteId == run[i].id
    ensures k < |run| && run[k].Enable? ==> Step(After(init, run, k), run[k]).2 != Success
    ensures k < |run| && run[k].Disable? ==>
      (Step(After(init, run, k), run[k]).2 == Success <==> run[k].id == run[i].id)
  {
    if i + 1 < k {
      HolderKeepsVote(init, run, i, k - 1);
    }
  }

  /* ---------- the messages decide ---------- */

  // An unknown number stands for no lock.
  function Known(lock: int): int { if ValidLock(lock) then lock else LOCK_NONE }

  // The lock configured last, whether or not the vote was held then.
  ghost function Configured(init: State, run: seq<Event>, k: nat): int
    requires k <= |run|
  {
    if k == 0 then init.configLock
    else if run[k - 1].UpdateLock? then Known(run[k - 1].lock)
    else Configured(init, run, k - 1)
  }

  // The id that has the vote, if any: of an enable that found it free, until a disable names it.
  ghost function Holder(run: seq<Event>, k: nat): nat
    requires k <= |run|
  {
    if k == 0 then 0
    else
      var holder := Holder(run, k - 1);
      match run[k - 1]
      case Enable(id, gnss, _) => if gnss && holder == 0 then id else holder
      case Disable(id, _) => if id == holder then 0 else holder
      case UpdateLock(_, _) => holder
  }

  // In every run, the holder is as the enables and disables say, and the lock to apply without
  // a vote is the one configured last.
  lemma {:induction false} MessagesDecide(init: State, run: seq<Event>, k: nat)
    requires k <= |run| && init.voteId == 0
    ensures After(init, run, k).voteId == Holder(run, k)
    ensures After(init, run, k).configLock == Configured(init, run, k)
  {
    if k > 0 {
      MessagesDecide(init, run, k - 1);
    }
  }

  // That is: by the last update, and by what was there at first if there has been none.
  lemma {:induction false} LastUpdateDecides(init: State, run: seq<Event>, i: nat, k: nat)
    requires i <= k <= |run| && forall j :: i <= j < k ==> !run[j].UpdateLock?
    ensures i == 0 ==> After(init, run, k).configLock == init.configLock
    ensures i > 0 && run[i - 1].UpdateLock? ==> After(init, run, k).configLock == Known(run[i - 1].lock)
  {
    if i < k {
      LastUpdateDecides(init, run, i, k - 1);
    }
  }

  // Message k takes the vote, or gives it back.
  ghost predicate Takes(run: seq<Event>, k: nat)
    requires k < |run|
  {
    run[k].Enable? && run[k].gnss && Holder(run, k) == 0
  }

  ghost predicate Returns(run: seq<Event>, k: nat)
    requires k < |run|
  {
    run[k].Disable? && run[k].id == Holder(run, k)
  }

  // A vote is cast for just these messages, and the others are refused for the reason there is.
  lemma RepliesAreExact(init: State, run: seq<Event>, k: nat)
    requires k < |run| && init.voteId == 0
    ensures var (_, vote, reply) := Step(After(init, run, k), run[k]);
      && (vote == Some(true) <==> Takes(run, k)) && (vote == Some(false) <==> Returns(run, k))
      && (reply == EngineError <==> run[k].UpdateLock? && Holder(run, k) == 0 && !run[k].ok)
      && (reply == AlreadyStarted <==> run[k].Enable? && run[k].gnss && Holder(run, k) > 0)
      && (reply == InvalidParameter <==> run[k].Enable? && !run[k].gnss)
      && (reply == IdUnknown <==> run[k].Disable? && run[k].id != Holder(run, k))
  {
    MessagesDecide(init, run, k);
  }

  // What message k passes to the engine, if it calls it.
  ghost function Passed(init: State, run: seq<Event>, k: nat): Option<int>
    requires k < |run|
  {
    if Takes(run, k) then Some(LOCK_NONE)
    else if Returns(run, k) then Some(Known(Configured(init, run, k)))
    else if run[k].UpdateLock? && Holder(run, k) == 0 then Some(run[k].lock)
    else None
  }

  lemma StepPasses(init: State, run: seq<Event>, k: nat)
    requires k < |run| && init.voteId == 0
    ensures var (s, t) := (After(init, run, k), After(init, run, k + 1));
      && t.engineLock == (if Passed(init, run, k).Some? && run[k].ok then Passed(init, run, k) else s.engineLock)
      && t.xtraLock == (if Takes(run, k) || Returns(run, k) then Passed(init, run, k) else s.xtraLock)
  {
    MessagesDecide(init, run, k);
    hide Holder, Configured;
  }

  // In every run, the engine has the lock of the last call that succeeded, and what it had at first
  // if none did.
  lemma {:induction false} EngineHasLastLock(init: State, run: seq<Event>, i: nat, k: nat)
    requires i <= k <= |run| && init.voteId == 0
    requires forall j :: i <= j < k ==> !(Passed(init, run, j).Some? && run[j].ok)
    ensures i == 0 ==> After(init, run, k).engineLock == init.engineLock
    ensures i > 0 && Passed(init, run, i - 1).Some? && run[i - 1].ok ==>
      After(init, run, k).engineLock == Passed(init, run, i - 1)
  {
    hide Step, Passed;
    if i < k {
      EngineHasLastLock(init, run, i, k - 1);
      StepPasses(init, run, k - 1);
    } else if i > 0 {
      StepPasses(init, run, i - 1);
    }
  }

  // The XTRA observer has the lock of the last enable or disable that was heard, whatever the engine
  // answered.
  lemma {:induction false} ObserverHasLastLock(init: State, run: seq<Event>, i: nat, k: nat)
    requires i <= k <= |run| && init.voteId == 0
    requires forall j :: i <= j < k ==> !Takes(run, j) && !Returns(run, j)
    ensures i == 0 ==> After(init, run, k).xtraLock == init.xtraLock
    ensures i > 0 && (Takes(run, i - 1) || Returns(run, i - 1)) ==>
      After(init, run, k).xtraLock == Passed(init, run, i - 1)
  {
    hide Step, Passed, Takes, Returns;
    if i < k {
      ObserverHasLastLock(init, run, i, k - 1);
      StepPasses(init, run, k - 1);
    } else if i > 0 {
      StepPasses(init, run, i - 1);
    }
  }

  /* ---------- locks ---------- */

  // No lock while the vote is held, and else the configured one.
  function Wanted(s: State): int { if s.voteId > 0 then LOCK_NONE else Convert(s.configLock) }

  predicate LockRight(s: State) { s.engineLock == Some(Wanted(s)) }

  predicate SetsLock(s: State, e: Event) {
    match e
    case Enable(_, gnss, _) => gnss && s.voteId == 0
    case Disable(id, _) => s.voteId == id
    case UpdateLock(_, _) => s.voteId == 0
  }

  // The call can fail; and an update hands on the lock it was given, not the one it stored.
  predicate CallIsGood(e: Event) { e.ok && (e.UpdateLock? ==> ValidLock(e.lock)) }

  // A step sets the right lock exactly when its call is good, or the engine had that lock anyway.
  // A step that makes no call leaves what is right as it was.
  lemma StepSetsLockIff(s: State, e: Event)
    requires e.Enable? ==> e.id > 0
    ensures var t := Step(s, e).0;
      if SetsLock(s, e) then
        LockRight(t) <==> CallIsGood(e) || (s.engineLock == Some(Wanted(t)) && !(e.UpdateLock? && e.ok))
      else t.engineLock == s.engineLock && Wanted(t) == Wanted(s)
  {
  }

  // From the first enable on, and while the calls are good, the engine has the right lock: none while
  // the vote is held, and else the one configured last.
  lemma {:induction false} LockStaysRight(init: State, run: seq<Event>, i: nat, k: nat)
    requires i < k <= |run| && forall j :: 0 <= j < k && run[j].Enable? ==> run[j].id > 0
    requires run[i].Enable? && Step(After(init, run, i), run[i]).2 == Success
    requires forall j :: i <= j < k && SetsLock(After(init, run, j), run[j]) ==> CallIsGood(run[j])
    ensures LockRight(After(init, run, k))
    ensures init.voteId == 0 ==>
      After(init, run, k).engineLock == Some(if Holder(run, k) > 0 then LOCK_NONE else Known(Configured(init, run, k)))
  {
    if i + 1 < k {
      LockStaysRight(init, run, i, k - 1);
    }
    StepSetsLockIff(After(init, run, k - 1), run[k - 1]);
    if init.voteId == 0 {
      MessagesDecide(init, run, k);
    }
    hide Holder, Configured;
  }

  // The XTRA observer is told of enables and disables only.  After an update it is right exactly
  // when the vote is held, or the update changes nothing.
  lemma UpdateMissesXtraIff(s: State, lock: int, ok: bool)
    requires s.xtraLock == Some(Wanted(s))
    ensures var t := Step(s, UpdateLock(lock, ok)).0;
      t.xtraLock == Some(Wanted(t)) <==> s.voteId > 0 || Convert(lock) == Convert(s.configLock)
  {
  }
}
