/**
 On-demand position requests (ODCPI): gps/gnss/GnssAdapter.cpp and the timer of
 gps/gnss/GnssAdapter.h, which wraps gps/utils/LocTimer.cpp.

 The modem asks for a position, and the adapter passes the request to the framework, at most once
 per timer expiry.  The timer expires on its own thread: it posts a message, which the adapter
 handles later.
 */
module Odcpi {
  import opened Wrappers

  // `start` is false for a stop, and for any other type.
  datatype Request = Request(start: bool, emergency: bool, tbfMillis: int)

  // `timerActive` is the flag of OdcpiTimer; `armed` says that the LocTimer below it is ticking, and
  // `posted` counts the expiries it has sent which the adapter has not yet handled.
  datatype State = State(
    hasCallback: bool, requestActive: bool, timerActive: bool, request: Request, armed: bool, posted: nat)

  datatype Event =
    | Init
    | FromModem(request: Request)
    | TimerFires
    | Expiry
    | EngineRestart

  const INIT := State(false, false, false, Request(true, false, 0), false, 0)

  // A new request that is an emergency, over a stored one that is not.
  predicate Upgrade(s: State, r: Request) { !s.request.emergency && r.emergency }

  // start() and restart() of the timer leave it the same, whether it was ticking or not.
  function Started(s: State): State { s.(timerActive := true, armed := true) }

  function Stopped(s: State): State { s.(timerActive := false, armed := false) }

  function OnStart(s: State, r: Request): (State, Option<Request>) {
    var saved := s.(request := r, requestActive := true);
    if (!s.requestActive && !s.timerActive) || Upgrade(s, r) then (Started(saved), Some(r)) else (saved, None)
  }

  function OnExpiry(s: State): (State, Option<Request>) {
    if s.requestActive then (Started(s), Some(s.request)) else (Stopped(s), None)
  }

  predicate Enabled(s: State, e: Event) {
    (e.TimerFires? ==> s.armed) && (e.Expiry? ==> s.posted > 0)
  }

  // The new state, and what the framework is called with.
  function Step(s: State, e: Event): (State, Option<Request>)
    requires Enabled(s, e)
  {
    match e
    case Init => (s.(hasCallback := true), None)
    case FromModem(r) =>
      if !s.hasCallback then (s, None)
      else if r.start then OnStart(s, r)
      else (s.(requestActive := false), None)
    case TimerFires => (s.(armed := false, posted := s.posted + 1), None)
    case Expiry => OnExpiry(s.(posted := s.posted - 1))
    case EngineRestart => (s.(requestActive := false), None)
  }

  /* ---------- the source's object ---------- */

  class GnssOdcpi {
    var hasCallback: bool
    var requestActive: bool
    var timerActive: bool
    var request: Request
    var armed: bool
    var posted: nat

    ghost function View(): State
      reads this
    {
      State(hasCallback, requestActive, timerActive, request, armed, posted)
    }

    constructor ()
      ensures View() == INIT
    {
      hasCallback, requestActive, timerActive, armed, posted := false, false, false, false, 0;
      request := Request(true, false, 0);
    }

    method StartTimer()
      modifies this`timerActive, this`armed
      ensures View() == Started(old(View()))
    {
      timerActive := true;
      if !armed {
        armed := true;
      }
    }

    method StopTimer()
      modifies this`timerActive, this`armed
      ensures View() == Stopped(old(View()))
    {
      timerActive := false;
      if armed {
        armed := false;
      }
    }

    method RestartTimer()
      modifies this`timerActive, this`armed
      ensures View() == Started(old(View()))
    {
      StopTimer();
      StartTimer();
    }

    method InitOdcpi()
      modifies this
      ensures (View(), None) == Step(old(View()), Init)
    {
      hasCallback := true;
    }

    method ReportOdcpiRequest(r: Request) returns (called: Option<Request>)
      modifies this
      ensures (View(), called) == Step(old(View()), FromModem(r))
    {
      called := None;
      if hasCallback {
        if r.start {
          if !requestActive && !timerActive {
            called := Some(r);
            requestActive := true;
            StartTimer();
          } else if !request.emergency && r.emergency {
            called := Some(r);
            requestActive := true;
            if timerActive {
              RestartTimer();
            } else {
              StartTimer();
            }
          } else if !requestActive && timerActive {
            requestActive := true;
          }
          request := r;
        } else {
          requestActive := false;
        }
      }
    }

    // On the timer's thread.
    method TimeOut()
      requires armed
      modifies this
      ensures (View(), None) == Step(old(View()), TimerFires)
    {
      armed := false;
      posted := posted + 1;
    }

    method OdcpiTimerExpire() returns (called: Option<Request>)
      requires posted > 0
      modifies this
      ensures (View(), called) == Step(old(View()), Expiry)
    {
      posted := posted - 1;
      called := None;
      if requestActive {
        called := Some(request);
        RestartTimer();
      } else {
        StopTimer();
      }
    }

    method RestartSessions()
      modifies this
      ensures (View(), None) == Step(old(View()), EngineRestart)
    {
      requestActive := false;
    }
  }

  /* ---------- runs ---------- */

  // The state after the first k events, if each of them could happen.
  ghost function After(run: seq<Event>, k: nat): Option<State>
    requires k <= |run|
  {
    if k == 0 then Some(INIT)
    else
      var s := After(run, k - 1);
      if s.Some? && Enabled(s.value, run[k - 1]) then Some(Step(s.value, run[k - 1]).0) else None
  }

  ghost predicate Feasible(run: seq<Event>) { forall k :: 0 <= k <= |run| ==> After(run, k).Some? }

  ghost function At(run: seq<Event>, k: nat): State
    requires Feasible(run) && k <= |run|
  {
    After(run, k).value
  }

  lemma Unfold(run: seq<Event>, k: nat)
    requires Feasible(run) && k < |run|
    ensures Enabled(At(run, k), run[k]) && At(run, k + 1) == Step(At(run, k), run[k]).0
  {
    assert After(run, k + 1).Some?;
  }

  // What event k calls the framework with.
  ghost function Called(run: seq<Event>, k: nat): Option<Request>
    requires Feasible(run) && k < |run|
  {
    Unfold(run, k);
    Step(At(run, k), run[k]).1
  }

  ghost predicate Inv(s: State) {
    && (s.requestActive ==> s.timerActive)
    && (s.timerActive ==> s.hasCallback)
    && (s.timerActive ==> s.armed || s.posted > 0)
    && (!s.timerActive ==> !s.armed)
  }

  // An active request always has a timer that is ticking, or whose expiry is on its way: it cannot
  // be forgotten.  So in the source "neither request nor timer active" is just "timer not active".
  lemma {:induction false} ActiveRequestHasTimer(run: seq<Event>, k: nat)
    requires Feasible(run) && k <= |run|
    ensures var s := At(run, k);
      && Inv(s)
      && (s.requestActive ==> s.timerActive && s.hasCallback && (s.armed || s.posted > 0))
  {
    if k > 0 {
      ActiveRequestHasTimer(run, k - 1);
      Unfold(run, k - 1);
    }
  }

  /* ---------- the framework is not called too often ---------- */

  // A callback leaves the timer active, and only handling an expiry ends that.
  lemma {:induction false} TimerStaysActive(run: seq<Event>, i: nat, j: nat)
    requires Feasible(run) && i < j <= |run| && Called(run, i).Some?
    requires forall k :: i < k < j ==> !run[k].Expiry?
    ensures At(run, j).timerActive
  {
    Unfold(run, j - 1);
    if i + 1 < j {
      TimerStaysActive(run, i, j - 1);
    }
  }

  ghost predicate UpgradeAt(run: seq<Event>, k: nat)
    requires Feasible(run) && k < |run|
  {
    run[k].FromModem? && run[k].request.start && At(run, k).hasCallback && Upgrade(At(run, k), run[k].request)
  }

  // Between two callbacks an expiry was handled, unless the second is an emergency that replaces a
  // stored request that was none.
  lemma CallbacksAreSpaced(run: seq<Event>, i: nat, j: nat)
    requires Feasible(run) && i < j < |run| && Called(run, i).Some? && Called(run, j).Some?
    ensures UpgradeAt(run, j) || exists k :: i < k <= j && run[k].Expiry?
  {
    if forall k :: i < k <= j ==> !run[k].Expiry? {
      TimerStaysActive(run, i, j);
      Unfold(run, j);
    }
  }

  ghost function Callbacks(run: seq<Event>, k: nat): nat
    requires Feasible(run) && k <= |run|
  {
    if k == 0 then 0 else Callbacks(run, k - 1) + if Called(run, k - 1).Some? then 1 else 0
  }

  ghost function Expiries(run: seq<Event>, k: nat): nat
    requires k <= |run|
  {
    if k == 0 then 0 else Expiries(run, k - 1) + if run[k - 1].Expiry? then 1 else 0
  }

  ghost function Upgrades(run: seq<Event>, k: nat): nat
    requires Feasible(run) && k <= |run|
  {
    if k == 0 then 0 else Upgrades(run, k - 1) + if UpgradeAt(run, k - 1) then 1 else 0
  }

  // The starts that a callback is there for, and that are no emergency.
  ghost function Ordinary(run: seq<Event>, k: nat): nat
    requires Feasible(run) && k <= |run|
  {
    if k == 0 then 0
    else
      var (s, e) := (At(run, k - 1), run[k - 1]);
      Ordinary(run, k - 1) +
      if s.hasCallback && e.FromModem? && e.request.start && !e.request.emergency then 1 else 0
  }

  // Over a whole run: one callback per expiry handled or emergency upgrade, and one more; and an
  // upgrade needs an ordinary start before it, the stored request being none at first.
  lemma {:induction false} CallbacksAreBounded(run: seq<Event>, k: nat)
    requires Feasible(run) && k <= |run|
    ensures var s := At(run, k);
      && Callbacks(run, k) <= Expiries(run, k) + Upgrades(run, k) + (if s.timerActive then 1 else 0)
      && Upgrades(run, k) <= Ordinary(run, k) + (if s.request.emergency then 1 else 0)
  {
    if k > 0 {
      CallbacksAreBounded(run, k - 1);
      Unfold(run, k - 1);
    }
  }

  // Every expiry goes back to a callback of its own, which armed the timer.
  lemma {:induction false} ExpiriesComeFromCallbacks(run: seq<Event>, k: nat)
    requires Feasible(run) && k <= |run|
    ensures var s := At(run, k);
      Expiries(run, k) + s.posted + (if s.armed then 1 else 0) <= Callbacks(run, k)
  {
    if k > 0 {
      ExpiriesComeFromCallbacks(run, k - 1);
      Unfold(run, k - 1);
    }
  }

  // The expiries that are to come: one if the timer ticks, and those posted.
  ghost function ToCome(s: State): nat { s.posted + if s.armed then 1 else 0 }

  // A start arms the timer while an expiry is still posted: it is an emergency over a request that
  // is none, or the timer was taken to be stopped.
  ghost predicate Overtakes(run: seq<Event>, k: nat)
    requires Feasible(run) && k < |run|
  {
    var (s, e) := (At(run, k), run[k]);
    && e.FromModem? && e.request.start && s.hasCallback
    && s.posted > 0 && (!s.timerActive || Upgrade(s, e.request))
  }

  // That is the one way in which a second expiry comes about.
  lemma StepKeepsOneIff(run: seq<Event>, k: nat)
    requires Feasible(run) && k < |run| && ToCome(At(run, k)) <= 1
    ensures ToCome(At(run, k + 1)) <= 1 <==> !Overtakes(run, k)
  {
    Unfold(run, k);
    ActiveRequestHasTimer(run, k);
  }

  // The expiry that is handled is the only one to come.
  ghost predicate Fresh(run: seq<Event>, k: nat)
    requires Feasible(run) && k < |run|
  {
    At(run, k).posted == 1 && !At(run, k).armed
  }

  // In every run where that never happens, each expiry that is handled is fresh.
  lemma {:induction false} ExpiriesAreFresh(run: seq<Event>, k: nat)
    requires Feasible(run) && k <= |run| && forall j :: 0 <= j < k ==> !Overtakes(run, j)
    ensures ToCome(At(run, k)) <= 1
    ensures k < |run| && run[k].Expiry? ==> Fresh(run, k)
  {
    if k > 0 {
      ExpiriesAreFresh(run, k - 1);
      StepKeepsOneIff(run, k - 1);
    }
    if k < |run| {
      Unfold(run, k);
    }
    hide Overtakes;
  }

  // Two expiries stay two until one is handled, and that one is not fresh.
  lemma {:induction false} TwoStayTwo(run: seq<Event>, i: nat, k: nat)
    requires Feasible(run) && i <= k <= |run| && ToCome(At(run, i)) >= 2
    requires forall j :: i <= j < k ==> !run[j].Expiry?
    ensures ToCome(At(run, k)) >= 2
  {
    if i < k {
      TwoStayTwo(run, i, k - 1);
      Unfold(run, k - 1);
    }
  }

  // From any point whatever, the next expiry to be handled is fresh exactly if at most one was to
  // come then, and no start has overtaken a posted expiry since.
  lemma {:induction false} ExpiryIsFreshIff(run: seq<Event>, i: nat, k: nat)
    requires Feasible(run) && i <= k < |run| && run[k].Expiry?
    requires forall j :: i <= j < k ==> !run[j].Expiry?
    ensures Fresh(run, k) <==> ToCome(At(run, i)) <= 1 && forall j :: i <= j < k ==> !Overtakes(run, j)
    decreases k - i
  {
    if ToCome(At(run, i)) >= 2 {
      TwoStayTwo(run, i, k);
    } else if i == k {
      Unfold(run, k);
    } else {
      StepKeepsOneIff(run, i);
      ExpiryIsFreshIff(run, i + 1, k);
    }
    hide Overtakes;
  }

  // A stale expiry.  The timer fires, an emergency restarts it before the adapter has
  // handled that, and the old expiry then makes the framework be called twice in a row.
  lemma StaleExpiryCallsAgain()
    ensures var (ordinary, emergency) := (Request(true, false, 1000), Request(true, true, 1000));
      var run := [Init, FromModem(ordinary), TimerFires, FromModem(emergency), Expiry];
      Feasible(run) && Called(run, 3) == Some(emergency) == Called(run, 4) && At(run, 4).armed
  {
    var (ordinary, emergency) := (Request(true, false, 1000), Request(true, true, 1000));
    var run := [Init, FromModem(ordinary), TimerFires, FromModem(emergency), Expiry];
    assert After(run, 1) == Some(INIT.(hasCallback := true));
    assert After(run, 2) == Some(State(true, true, true, ordinary, true, 0));
    assert After(run, 3) == Some(State(true, true, true, ordinary, false, 1));
    assert After(run, 4) == Some(State(true, true, true, emergency, true, 1));
    assert After(run, 5).Some?;
    assert Feasible(run);
  }

  /* ---------- and it is called in the end ---------- */

  predicate Ends(e: Event) { e.EngineRestart? || (e.FromModem? && !e.request.start) }

  ghost predicate LastStart(run: seq<Event>, l: nat, j: nat)
    requires j <= |run|
  {
    l < j && run[l].FromModem? && run[l].request.start &&
    forall k :: l < k < j ==> !(run[k].FromModem? && run[k].request.start)
  }

  lemma {:induction false} StoresTheLastStart(run: seq<Event>, i: nat, j: nat) returns (l: nat)
    requires Feasible(run) && i < j <= |run| && At(run, i).hasCallback
    requires run[i].FromModem? && run[i].request.start
    requires forall k :: i < k < j ==> !Ends(run[k])
    ensures i <= l && LastStart(run, l, j)
    ensures var s := At(run, j); s.hasCallback && s.requestActive && s.request == run[l].request
  {
    Unfold(run, j - 1);
    if i + 1 == j {
      l := i;
    } else {
      l := StoresTheLastStart(run, i, j - 1);
      if run[j - 1].FromModem? {
        l := j - 1;
      }
    }
  }

  // After a start, and with no stop or engine restart since, the next expiry asks the framework
  // again, for what the modem asked last; and an expiry is certain to come.
  lemma ExpiryAsksForTheLatest(run: seq<Event>, i: nat, j: nat)
    requires Feasible(run) && i < j < |run| && At(run, i).hasCallback
    requires run[i].FromModem? && run[i].request.start
    requires forall k :: i < k < j ==> !Ends(run[k])
    ensures At(run, j).armed || At(run, j).posted > 0
    ensures run[j].Expiry? ==>
      exists l :: i <= l && LastStart(run, l, j) && Called(run, j) == Some(run[l].request)
  {
    var l := StoresTheLastStart(run, i, j);
    ActiveRequestHasTimer(run, j);
    Unfold(run, j);
  }

  ghost predicate Accepted(run: seq<Event>, l: nat)
    requires Feasible(run) && l < |run|
  {
    run[l].FromModem? && run[l].request.start && At(run, l).hasCallback
  }

  // Some start has been taken that no stop and no engine restart has ended since.
  ghost predicate Live(run: seq<Event>, k: nat)
    requires Feasible(run) && k <= |run|
  {
    exists l: nat :: l < k && Accepted(run, l) && Lasts(run, l, k)
  }

  ghost predicate Lasts(run: seq<Event>, l: nat, k: nat)
    requires k <= |run|
  {
    forall m :: l < m < k ==> !Ends(run[m])
  }

  lemma LiveStep(run: seq<Event>, k: nat)
    requires Feasible(run) && 0 < k <= |run|
    ensures Live(run, k) <==> Accepted(run, k - 1) || (Live(run, k - 1) && !Ends(run[k - 1]))
  {
  }

  // An expiry, whenever it comes, calls the framework exactly when some start is still live.
  lemma {:induction false} ExpiryCallsIff(run: seq<Event>, k: nat)
    requires Feasible(run) && k <= |run|
    ensures At(run, k).requestActive <==> Live(run, k)
    ensures k < |run| && run[k].Expiry? ==> (Called(run, k).Some? <==> Live(run, k))
  {
    if k > 0 {
      ExpiryCallsIff(run, k - 1);
      Unfold(run, k - 1);
      LiveStep(run, k);
      ActiveRequestHasTimer(run, k - 1);
    }
    hide Live;
  }

  // l is the last start that was taken among the first k messages.
  ghost predicate Latest(run: seq<Event>, l: nat, k: nat)
    requires Feasible(run) && k <= |run|
  {
    l < k && Accepted(run, l) && forall m :: l < m < k ==> !Accepted(run, m)
  }

  lemma {:induction false} StoresTheLatest(run: seq<Event>, k: nat) returns (l: nat)
    requires Feasible(run) && k <= |run| && exists m: nat :: m < k && Accepted(run, m)
    ensures Latest(run, l, k) && At(run, k).request == run[l].request
  {
    Unfold(run, k - 1);
    if Accepted(run, k - 1) {
      l := k - 1;
    } else {
      l := StoresTheLatest(run, k - 1);
    }
  }

  // A callback is either a start's own, or that of an expiry for what is stored.
  lemma CallIsStored(run: seq<Event>, k: nat)
    requires Feasible(run) && k < |run| && Called(run, k).Some?
    ensures Called(run, k).value == At(run, k + 1).request
    ensures Accepted(run, k) || (run[k].Expiry? && At(run, k).requestActive)
  {
  }

  // Whatever makes the framework be called, it is called with the latest request, a new one included.
  lemma CallsWithTheLatest(run: seq<Event>, k: nat)
    requires Feasible(run) && k < |run| && Called(run, k).Some?
    ensures exists l: nat :: Latest(run, l, k + 1) && Called(run, k) == Some(run[l].request)
  {
    hide Called, Accepted, Lasts, Latest, At, Feasible;
    CallIsStored(run, k);
    if !Accepted(run, k) {
      ExpiryCallsIff(run, k);
      var m: nat :| m < k && Accepted(run, m) && Lasts(run, m, k);
      assert m < k + 1 && Accepted(run, m);
    }
    var l := StoresTheLatest(run, k + 1);
  }

  /* ---------- exactly when it is called ---------- */

  // Somebody to call has registered.
  ghost predicate Registered(run: seq<Event>, k: nat)
    requires k <= |run|
  {
    exists j :: 0 <= j < k && run[j].Init?
  }

  lemma {:induction false} CallbackIffRegistered(run: seq<Event>, k: nat)
    requires Feasible(run) && k <= |run|
    ensures At(run, k).hasCallback <==> Registered(run, k)
  {
    if k > 0 {
      CallbackIffRegistered(run, k - 1);
      Unfold(run, k - 1);
      assert run[k - 1].Init? ==> Registered(run, k);
    }
  }

  // The framework was called, and no expiry has been handled since.
  ghost predicate Calling(run: seq<Event>, k: nat)
    requires Feasible(run) && k <= |run|
  {
    exists i :: CallLasts(run, i, k)
  }

  ghost predicate CallLasts(run: seq<Event>, i: int, k: nat)
    requires Feasible(run) && k <= |run|
  {
    0 <= i < k && Called(run, i).Some? && forall j :: i < j < k ==> !run[j].Expiry?
  }

  // And the timer has not fired since.
  ghost predicate Ticking(run: seq<Event>, k: nat)
    requires Feasible(run) && k <= |run|
  {
    exists i :: CallLasts(run, i, k) && forall j :: i < j < k ==> !run[j].TimerFires?
  }

  lemma CallingStep(run: seq<Event>, k: nat)
    requires Feasible(run) && 0 < k <= |run|
    ensures Calling(run, k) <==> Called(run, k - 1).Some? || (Calling(run, k - 1) && !run[k - 1].Expiry?)
    ensures Ticking(run, k) <==>
      Called(run, k - 1).Some? || (Ticking(run, k - 1) && !run[k - 1].Expiry? && !run[k - 1].TimerFires?)
  {
    hide Called;
    assert forall i :: CallLasts(run, i, k) <==>
      (i == k - 1 && Called(run, i).Some?) || (CallLasts(run, i, k - 1) && !run[k - 1].Expiry?);
    if Called(run, k - 1).Some? {
      assert CallLasts(run, k - 1, k);
    }
  }

  ghost function Fires(run: seq<Event>, k: nat): nat
    requires k <= |run|
  {
    if k == 0 then 0 else Fires(run, k - 1) + if run[k - 1].TimerFires? then 1 else 0
  }

  // In every run: the timer is active exactly from a call of the framework up to the next expiry
  // handled, and ticks exactly until it fires in between; and the expiries posted are those fired
  // and not handled.
  lemma {:induction false} TimerFollowsCalls(run: seq<Event>, k: nat)
    requires Feasible(run) && k <= |run|
    ensures var s := At(run, k);
      && (s.timerActive <==> Calling(run, k)) && (s.armed <==> Ticking(run, k))
      && Fires(run, k) == Expiries(run, k) + s.posted
  {
    if k > 0 {
      TimerFollowsCalls(run, k - 1);
      CallingStep(run, k);
      Unfold(run, k - 1);
      ActiveRequestHasTimer(run, k - 1);
    }
    hide Calling, Ticking;
  }

  // The latest start taken, if any, was an emergency.
  ghost predicate InEmergency(run: seq<Event>, k: nat)
    requires Feasible(run) && k <= |run|
  {
    exists l: nat :: Latest(run, l, k) && run[l].request.emergency
  }

  // What is stored is the latest start, or what is there at first, which is no emergency.
  lemma {:induction false} StoredEmergencyIff(run: seq<Event>, k: nat)
    requires Feasible(run) && k <= |run|
    ensures At(run, k).request.emergency <==> InEmergency(run, k)
  {
    hide Accepted;
    if m: nat :| m < k && Accepted(run, m) {
      var l := StoresTheLatest(run, k);
      assert forall n: nat :: Latest(run, n, k) ==> n == l;
    } else {
      NothingStored(run, k);
    }
  }

  lemma {:induction false} NothingStored(run: seq<Event>, k: nat)
    requires Feasible(run) && k <= |run| && forall m: nat :: m < k ==> !Accepted(run, m)
    ensures At(run, k).request == INIT.request
  {
    if k > 0 {
      NothingStored(run, k - 1);
      Unfold(run, k - 1);
      assert !Accepted(run, k - 1);
    }
  }

  // In every run, the framework is called exactly when an expiry is handled while some start is
  // live, or a start is taken that finds no call still waiting for its expiry, or one that is an
  // emergency after a start that was none.
  lemma CalledIff(run: seq<Event>, k: nat)
    requires Feasible(run) && k < |run|
    ensures Called(run, k).Some? <==>
      || (run[k].Expiry? && Live(run, k))
      || (Accepted(run, k) && (!Calling(run, k) || (run[k].request.emergency && !InEmergency(run, k))))
    ensures Accepted(run, k) <==> Registered(run, k) && run[k].FromModem? && run[k].request.start
  {
    Unfold(run, k);
    ActiveRequestHasTimer(run, k);
    CallbackIffRegistered(run, k);
    TimerFollowsCalls(run, k);
    StoredEmergencyIff(run, k);
    ExpiryCallsIff(run, k);
    hide Registered, Calling, InEmergency, Live, Ticking;
  }

  // So an emergency is passed on at once, unless the start before it was one too, and a call is still
  // waiting for its expiry.
  lemma EmergencyIsPassedOn(run: seq<Event>, k: nat)
    requires Feasible(run) && k < |run| && Accepted(run, k) && run[k].request.emergency
    ensures Called(run, k) == Some(run[k].request) || (InEmergency(run, k) && Calling(run, k))
  {
    CalledIff(run, k);
    Unfold(run, k);
    hide Calling, InEmergency;
  }
}
