/**
 The retry bound of the DS machine, over every run and every answer of the data-services client.
 */
module DsRuns {
  import opened Agps
  import opened AgpsRuns

  // Retry timers started since the last fallback to plain SUPL, given c before the first k calls.
  ghost function Fold(c: nat, out: seq<Action>, k: nat): nat
    requires k <= |out|
  {
    if k == 0 then c else
      match out[k - 1]
      case StartRetryTimer => Fold(c, out, k - 1) + 1
      case PostSupl(_) => 0
      case _ => Fold(c, out, k - 1)
  }

  ghost function TimersSinceFallback(run: seq<Input>, k: nat): nat
    requires k <= |run|
  {
    if k == 0 then 0 else
      var out := Calls(Ds, run, k - 1);
      Fold(TimersSinceFallback(run, k - 1), out, |out|)
  }

  // The counter field counts exactly those timers, and stays within the limit.
  ghost predicate Counts(m: Machine, eff: Effect) {
    0 <= m.retries <= MAX_START_DATA_CALL_RETRIES ==>
      0 <= eff.m.retries == Fold(m.retries, eff.out, |eff.out|) <= MAX_START_DATA_CALL_RETRIES
  }

  lemma {:induction false} FoldAppend(c: nat, a: seq<Action>, b: seq<Action>, k: nat)
    requires k <= |a| + |b|
    ensures Fold(c, a + b, k) == if k <= |a| then Fold(c, a, k) else Fold(Fold(c, a, |a|), b, k - |a|)
  {
    if k > 0 { FoldAppend(c, a, b, k - 1); }
  }

  lemma {:induction false} NoticesCount(e: Event, subs: seq<Subscriber>, k: nat, t: Target, c: nat)
    requires k <= |subs|
    ensures var out := Notices(Ds, e, subs, k, t);
      RetriesOver(Ds, c, e, subs, k, t) == Fold(c, out, |out|)
  {
    if k > 0 {
      NoticesCount(e, subs, k - 1, t, c);
      var (out, n) := (Notices(Ds, e, subs, k - 1, t), Notice(Ds, e, subs[k - 1].handle));
      FoldAppend(c, out, n, |out| + |n|);
      NoticeCounts(e, subs[k - 1].handle, Fold(c, out, |out|));
      assert out + [] == out;
    }
  }

  lemma NoticeCounts(e: Event, h: int, c: nat)
    ensures var n := Notice(Ds, e, h); Fold(c, n, |n|) == if Resets(Ds, e) then 0 else c
  {
    var n := Notice(Ds, e, h);
    assert Fold(c, n, 0) == c;
    if |n| == 2 { assert Fold(c, n, 1) == c; }
  }

  lemma RoundCounts(m: Machine, e: Event, t: Target, delete: bool)
    requires m.kind == Ds
    ensures Counts(m, NotifyAll(m, e, t, delete))
  {
    if m.retries >= 0 {
      NoticesCount(e, m.subs, |m.subs|, t, m.retries);
      RetriesInRange(m.retries, e, m.subs, |m.subs|, t);
    }
  }

  lemma {:induction false} RetriesInRange(r: int, e: Event, subs: seq<Subscriber>, k: nat, t: Target)
    requires k <= |subs|
    ensures var n := RetriesOver(Ds, r, e, subs, k, t); n == 0 || n == r
  {
    if k > 0 { RetriesInRange(r, e, subs, k - 1, t); }
  }

  lemma ConnCounts(m: Machine, request: bool, env: Env)
    requires m.kind == Ds
    ensures Counts(m, Conn(m, request, env).0)
  {
    var eff := Conn(m, request, env).0;
    if 0 <= m.retries <= MAX_START_DATA_CALL_RETRIES {
      assert Fold(m.retries, eff.out, 0) == m.retries;
      if |eff.out| == 2 { assert Fold(m.retries, eff.out, 1) == m.retries; }
    }
    hide FirstActive;
  }

  lemma ThenCounts(m: Machine, a: Effect, b: Effect)
    requires Counts(m, a) && Counts(a.m, b)
    ensures Counts(m, Effect(b.m, a.out + b.out))
  {
    if m.retries >= 0 { FoldAppend(m.retries, a.out, b.out, |a.out| + |b.out|); }
  }

  lemma SilentCounts(m: Machine, eff: Effect)
    requires eff.m.retries == m.retries
    requires eff.out == [] || exists a :: eff.out == [a] && !a.StartRetryTimer? && !a.PostSupl?
    ensures Counts(m, eff)
  {
  }

  lemma SubscribeCounts(m: Machine, h: int, wait: bool, env: Env)
    requires m.kind == Ds
    ensures Counts(m, OnSubscribe(m, h, wait, env))
  {
    var m1 := m.(subs := Add(m.subs, Subscriber(h, wait, false)));
    ConnCounts(m1, true, env);
    if m.state != Released {
      var eff := OnSubscribe(m, h, wait, env);
      if m.state == Acquired { assert eff.out == [OpenStatus(h, true)]; }
      SilentCounts(m, eff);
    }
    hide Conn, Fold;
  }

  lemma UnsubscribeCounts(m: Machine, h: int, env: Env)
    requires m.kind == Ds
    ensures Counts(m, OnUnsubscribe(m, h, env))
  {
    var i := Find(m.subs, h);
    var eff := OnUnsubscribe(m, h, env);
    if i == |m.subs| {
      assert eff.out == [CloseStatus(h, false)];
      SilentCounts(m, eff);
    } else if m.state == Released {
      assert eff.out == [CloseStatus(h, true)];
      SilentCounts(m, eff);
    } else {
      var d := Depart(m, i);
      var s := m.subs[i];
      assert d.out != [] ==> d.out == [CloseStatus(s.handle, true)];
      SilentCounts(m, d);
      ConnCounts(d.m.(state := Released), false, env);
      ConnCounts(d.m.(state := Releasing), false, env);
      SilentCounts(d.m, Effect(d.m, []));
      ThenCounts(m, d, Wind(d.m, env));
    }
    hide Conn, Fold, Find, Depart, AnyActive;
  }

  lemma ClosedCounts(m: Machine, env: Env)
    requires m.kind == Ds
    ensures Counts(m, OnClosed(m, env))
  {
    var n := NotifyAll(m, ConnReleased, ForInactive, true);
    RoundCounts(m, ConnReleased, ForInactive, true);
    ConnCounts(n.m.(state := Pending), true, env);
    ThenCounts(m, n, Conn(n.m.(state := Pending), true, env).0);
    hide Conn, Fold, NotifyAll, AnyActive;
  }

  lemma StepCounts(m: Machine, e: Event, env: Env)
    requires m.kind == Ds
    ensures Counts(m, Step(m, e, env))
  {
    SilentCounts(m, Effect(m, []));
    match e {
      case Subscribe(h, wait) => SubscribeCounts(m, h, wait, env);
      case Unsubscribe(h) => UnsubscribeCounts(m, h, env);
      case Granted => RoundCounts(m.(state := Acquired), Granted, ForActive, false);
      case RetryTimer =>
        var i := FirstActive(m.subs);
        if i < |m.subs| { SilentCounts(m, Effect(m, [PostSuplEs(m.subs[i].handle)])); }
      case ModemRestart => SilentCounts(m, Effect(m.(subs := []), []));
      case _ =>
        ClosedCounts(m, env);
        RoundCounts(m.(state := Released), ConnReleased, ForAll, true);
        RoundCounts(m.(state := Released), Denied, ForAll, true);
    }
    hide OnSubscribe, OnUnsubscribe, OnClosed, NotifyAll, Fold;
  }

  // In every run, at most four retry timers are started between two fallbacks, and the counter
  // field is their exact number; a successful call in between does not reset it.
  lemma {:induction false} RetriesAreBounded(run: seq<Input>, k: nat)
    requires k <= |run|
    ensures 0 <= After(Ds, run, k).retries <= MAX_START_DATA_CALL_RETRIES
    ensures After(Ds, run, k).retries == TimersSinceFallback(run, k)
  {
    hide Step, Fold;
    if k > 0 {
      RetriesAreBounded(run, k - 1);
      KindIsFixed(Ds, run, k - 1);
      StepCounts(After(Ds, run, k - 1), run[k - 1].e, run[k - 1].env);
      assert Calls(Ds, run, k - 1) == Step(After(Ds, run, k - 1), run[k - 1].e, run[k - 1].env).out;
    }
  }

  // A busy answer falls back if r timers were started already and r is the limit; otherwise it
  // starts one more.
  ghost predicate BusyRule(r: int, env: Env, out: seq<Action>) {
    StartDataCall in out && env.start.EngineBusy? ==>
      && (r == MAX_START_DATA_CALL_RETRIES <==> exists h :: PostSupl(h) in out)
      && (r < MAX_START_DATA_CALL_RETRIES <==> StartRetryTimer in out)
  }

  ghost predicate ClosesOnly(out: seq<Action>) { forall a :: a in out ==> a.CloseStatus? || a.CloseDataCall? }

  lemma ConnBusy(m: Machine, request: bool, env: Env)
    requires m.kind == Ds && 0 <= m.retries <= MAX_START_DATA_CALL_RETRIES
    ensures BusyRule(m.retries, env, Conn(m, request, env).0.out)
  {
  }

  lemma AfterCloses(r: int, env: Env, pre: seq<Action>, out: seq<Action>)
    requires ClosesOnly(pre) && BusyRule(r, env, out)
    ensures BusyRule(r, env, pre + out)
  {
  }

  lemma {:induction false} RoundCloses(e: Event, subs: seq<Subscriber>, k: nat, t: Target)
    requires k <= |subs|
    ensures StartDataCall !in Notices(Ds, e, subs, k, t)
    ensures e.ConnReleased? ==> ClosesOnly(Notices(Ds, e, subs, k, t))
    ensures e.ConnReleased? ==> forall r :: RetriesOver(Ds, r, e, subs, k, t) == r
  {
    if k > 0 { RoundCloses(e, subs, k - 1, t); }
  }

  lemma UnsubscribeBusy(m: Machine, h: int, env: Env)
    requires m.kind == Ds && 0 <= m.retries <= MAX_START_DATA_CALL_RETRIES
    ensures BusyRule(m.retries, env, OnUnsubscribe(m, h, env).out)
  {
  }

  lemma ClosedBusy(m: Machine, env: Env)
    requires m.kind == Ds && 0 <= m.retries <= MAX_START_DATA_CALL_RETRIES
    ensures BusyRule(m.retries, env, OnClosed(m, env).out)
  {
    var n := NotifyAll(m, ConnReleased, ForInactive, true);
    RoundCloses(ConnReleased, m.subs, |m.subs|, ForInactive);
    ConnBusy(n.m.(state := Pending), true, env);
    AfterCloses(m.retries, env, n.out, Conn(n.m.(state := Pending), true, env).0.out);
    hide Conn, Kept, Notices, RetriesOver, AnyActive;
  }

  lemma StepBusy(m: Machine, e: Event, env: Env)
    requires m.kind == Ds && 0 <= m.retries <= MAX_START_DATA_CALL_RETRIES
    ensures BusyRule(m.retries, env, Step(m, e, env).out)
  {
    match e {
      case Subscribe(h, wait) => ConnBusy(m.(subs := Add(m.subs, Subscriber(h, wait, false))), true, env);
      case Unsubscribe(h) => UnsubscribeBusy(m, h, env);
      case Granted => RoundCloses(Granted, m.subs, |m.subs|, ForActive);
      case _ =>
        ClosedBusy(m, env);
        RoundCloses(ConnReleased, m.subs, |m.subs|, ForAll);
        RoundCloses(Denied, m.subs, |m.subs|, ForAll);
    }
    hide Conn, OnUnsubscribe, OnClosed, Notices, Kept, RetriesOver;
  }

  // In every run: a busy answer falls back exactly when it is the fifth since the last fallback.
  lemma FifthBusyFallsBack(run: seq<Input>, k: nat)
    requires k < |run|
    ensures BusyRule(TimersSinceFallback(run, k), run[k].env, Calls(Ds, run, k))
  {
    hide Step;
    RetriesAreBounded(run, k);
    KindIsFixed(Ds, run, k);
    StepBusy(After(Ds, run, k), run[k].e, run[k].env);
  }

  // A retry is posted for a subscriber that is listed and active.
  lemma RetryIsForListed(m: Machine, env: Env, h: int)
    requires m.kind == Ds && PostSuplEs(h) in Step(m, RetryTimer, env).out
    ensures exists s :: s in m.subs && s.handle == h && !s.inactive
  {
  }

  // Subscribing leaves the list alone exactly if the handle is listed, and else appends it.  A call
  // is started exactly if the machine is released, calls can be made, and somebody is active then.
  lemma SubscribeListsIff(m: Machine, h: int, env: Env)
    requires m.kind == Ds
    ensures var (eff, s) := (Step(m, Subscribe(h, true), env), Subscriber(h, true, false));
      && (eff.m.subs == m.subs <==> Has(m.subs, h))
      && (!Has(m.subs, h) ==> eff.m.subs == m.subs + [s])
      && (StartDataCall in eff.out <==> m.state == Released && env.startFn && AnyActive(Add(m.subs, s)))
  {
    var s := Subscriber(h, true, false);
    var added := Add(m.subs, s);
    ConnKeepsList(m.(subs := added), true, env);
    assert FirstActive(added) < |added| ==> added[FirstActive(added)] in added;
    if AnyActive(added) {
      var t :| t in added && !t.inactive;
    }
    hide FirstActive;
  }

  // The retry that fires at k goes through the adapter's queue, and is delivered at l.  In every
  // run, whatever came in between: the list is left alone exactly if the handle is still listed,
  // no handle is listed twice, and a call is started exactly if the machine is released then.
  lemma RetryKeepsListIff(run: seq<Input>, k: nat, l: nat, h: int)
    requires k < l < |run| && run[k].e.RetryTimer? && PostSuplEs(h) in Calls(Ds, run, k)
    requires run[l].e == Subscribe(h, true)
    ensures var (m, t) := (After(Ds, run, l), After(Ds, run, l + 1));
      && Has(After(Ds, run, k).subs, h)
      && (t.subs == m.subs <==> Has(m.subs, h)) && Has(t.subs, h) && Distinct(t.subs)
      && (StartDataCall in Calls(Ds, run, l) <==>
            m.state == Released && run[l].env.startFn && AnyActive(Add(m.subs, Subscriber(h, true, false))))
  {
    hide Step, Distinct, AnyActive, Add;
    assert After(Ds, run, l + 1) == Step(After(Ds, run, l), run[l].e, run[l].env).m;
    KindIsFixed(Ds, run, k);
    KindIsFixed(Ds, run, l);
    RetryIsForListed(After(Ds, run, k), run[k].env, h);
    SubscribeListsIff(After(Ds, run, l), h, run[l].env);
    HandlesAreDistinct(Ds, run, l + 1);
    AppendedIsListed(After(Ds, run, l).subs, h);
    hide After;
  }

  lemma AppendedIsListed(subs: seq<Subscriber>, h: int)
    ensures Has(subs + [Subscriber(h, true, false)], h)
  {
    var s := Subscriber(h, true, false);
    assert (subs + [s])[|subs|] == s;
  }

  // Delivered at once, with nothing in between, it never changes the list.
  lemma RetryKeepsList(m: Machine, env: Env, h: int, again: Env)
    requires m.kind == Ds && PostSuplEs(h) in Step(m, RetryTimer, env).out
    ensures var eff := Step(m, Subscribe(h, true), again);
      && eff.m.subs == m.subs
      && (StartDataCall in eff.out <==> m.state == Released && again.startFn)
  {
  }

  // A restart in between is one way for the handle to be gone: the retry then lists it anew.
  lemma RetryAfterRestartLists(m: Machine, env: Env, h: int)
    requires m.kind == Ds
    ensures Step(Step(m, ModemRestart, env).m, Subscribe(h, true), env).m.subs == [Subscriber(h, true, false)]
  {
    var s := Subscriber(h, true, false);
    SubscribeListsIff(m.(subs := []), h, env);
    assert [] + [s] == [s];
    hide OnSubscribe;
  }

  // When the connection is asked for again on leaving RELEASING, a busy answer leaves the machine
  // pending all the same: its retry finds nothing to do, and no further call is started.
  lemma BusyAfterReleasingIsLost()
    ensures var env := Env(true, true, EngineBusy);
      var m := Machine(Ds, Releasing, [Subscriber(1, true, true), Subscriber(2, true, false)], 0);
      var m1 := Step(m, ConnReleased, env);
      var m2 := Step(m1.m, RetryTimer, env);
      var m3 := Step(m2.m, Subscribe(2, true), env);
      && m1.out == [CloseDataCall, CloseStatus(1, true), StartDataCall, StartRetryTimer]
      && m2.out == [PostSuplEs(2)]
      && m3.out == [] && m3.m == m1.m && m1.m.state == Pending
  {
    var subs := [Subscriber(1, true, true), Subscriber(2, true, false)];
    assert Kept(subs, 1, ForInactive, true) == [];
    assert Kept(subs, 2, ForInactive, true) == [subs[1]];
    assert Notices(Ds, ConnReleased, subs, 1, ForInactive) == [CloseDataCall, CloseStatus(1, true)];
    assert Notices(Ds, ConnReleased, subs, 2, ForInactive) == [CloseDataCall, CloseStatus(1, true)];
    var left := [subs[1]];
    assert left[0] in left && FirstActive(left) == 0;
  }

  // That machine is reached: 1 is served and leaves, and 2 asks while the call is being closed.
  lemma ReleasingIsReached()
    ensures var env := Env(true, true, Success);
      var run := [Input(Subscribe(1, true), env), Input(Granted, env), Input(Unsubscribe(1), env),
                  Input(Subscribe(2, true), env)];
      After(Ds, run, 4) == Machine(Ds, Releasing, [Subscriber(1, true, true), Subscriber(2, true, false)], 0)
  {
    var env := Env(true, true, Success);
    var run := [Input(Subscribe(1, true), env), Input(Granted, env), Input(Unsubscribe(1), env),
                Input(Subscribe(2, true), env)];
    hide Step;
    IsServed(env);
    IsGone(env);
    var one := Subscriber(1, true, false);
    assert After(Ds, run, 1) == Machine(Ds, Pending, [one], 0);
    assert After(Ds, run, 2) == Machine(Ds, Acquired, [one], 0);
    assert After(Ds, run, 3) == Machine(Ds, Releasing, [Subscriber(1, true, true)], 0);
  }

  lemma IsServed(env: Env)
    requires env == Env(true, true, Success)
    ensures var one := Subscriber(1, true, false);
      && Step(Init(Ds), Subscribe(1, true), env).m == Machine(Ds, Pending, [one], 0)
      && Step(Machine(Ds, Pending, [one], 0), Granted, env).m == Machine(Ds, Acquired, [one], 0)
  {
    var one := Subscriber(1, true, false);
    assert Add([], one) == [one] && FirstActive([one]) == 0;
    KeptAll([one], 1, ForActive);
    RetriesInRange(0, Granted, [one], 1, ForActive);
  }

  lemma IsGone(env: Env)
    requires env == Env(true, true, Success)
    ensures var (one, gone, two) := (Subscriber(1, true, false), Subscriber(1, true, true), Subscriber(2, true, false));
      && Step(Machine(Ds, Acquired, [one], 0), Unsubscribe(1), env).m == Machine(Ds, Releasing, [gone], 0)
      && Step(Machine(Ds, Releasing, [gone], 0), Subscribe(2, true), env).m == Machine(Ds, Releasing, [gone, two], 0)
  {
    var (one, gone, two) := (Subscriber(1, true, false), Subscriber(1, true, true), Subscriber(2, true, false));
    assert Find([one], 1) == 0 && [one][0 := gone] == [gone];
    assert Add([gone], two) == [gone] + [two] == [gone, two];
  }
}
