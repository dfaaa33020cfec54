/**
 What becomes of the subscribers of the DS machine: who leaves its list and what it is told, and who
 is listed while the machine is released.
 */
module DsLists {
  import opened Agps
  import opened AgpsRuns

  /* ---------- who leaves, and what it is told ---------- */

  // A subscriber of this handle among the first k is reached.
  ghost predicate Reached(subs: seq<Subscriber>, k: nat, t: Target, h: int)
    requires k <= |subs|
  {
    exists j :: 0 <= j < k && Hit(subs[j], t) && subs[j].handle == h
  }

  lemma {:induction false} RoundTells(e: Event, subs: seq<Subscriber>, k: nat, t: Target, h: int)
    requires k <= |subs|
    ensures var out := Notices(Ds, e, subs, k, t);
      && (CloseStatus(h, true) in out <==> (e.ConnReleased? || e.Unsubscribe?) && Reached(subs, k, t, h))
      && (PostSupl(h) in out <==> e.Denied? && Reached(subs, k, t, h))
  {
    if k > 0 { RoundTells(e, subs, k - 1, t, h); }
  }

  // With distinct handles, a round that deletes takes out just the handles that it reaches.
  lemma RoundTakesOut(subs: seq<Subscriber>, t: Target, h: int)
    requires Distinct(subs)
    ensures Has(Kept(subs, |subs|, t, true), h) <==> Has(subs, h) && !Reached(subs, |subs|, t, h)
  {
    var kept := Kept(subs, |subs|, t, true);
    forall s ensures s in kept <==> s in subs && !Hit(s, t) {
      KeptMember(subs, |subs|, t, true, s);
    }
    if s :| s in subs && s.handle == h && !Reached(subs, |subs|, t, h) {
      var j :| 0 <= j < |subs| && subs[j] == s;
      assert s in kept;
    }
    hide Kept;
  }

  lemma ConnTellsNobody(m: Machine, request: bool, env: Env, h: int)
    requires m.kind == Ds
    ensures var eff := Conn(m, request, env).0; eff.m.subs == m.subs && CloseStatus(h, true) !in eff.out
  {
    hide FirstActive;
  }

  // What an event does to the handle: it leaves, and is told that its connection is closed.
  ghost predicate Leaves(m: Machine, eff: Effect, h: int) { Has(m.subs, h) && !Has(eff.m.subs, h) }

  lemma ClosedTells(m: Machine, env: Env, h: int)
    requires m.kind == Ds && Distinct(m.subs)
    ensures var eff := OnClosed(m, env); CloseStatus(h, true) in eff.out <==> Leaves(m, eff, h)
  {
    var n := NotifyAll(m, ConnReleased, ForInactive, true);
    RoundTells(ConnReleased, m.subs, |m.subs|, ForInactive, h);
    RoundTakesOut(m.subs, ForInactive, h);
    ReachedIsListed(m.subs, ForInactive, h);
    ConnTellsNobody(n.m.(state := Pending), true, env, h);
    hide Conn, Kept, Notices, RetriesOver, AnyActive, Has, Reached;
  }

  lemma ReachedIsListed(subs: seq<Subscriber>, t: Target, h: int)
    ensures Reached(subs, |subs|, t, h) ==> Has(subs, h)
    ensures t.ForAll? ==> (Reached(subs, |subs|, t, h) <==> Has(subs, h))
  {
    if j :| 0 <= j < |subs| && Hit(subs[j], t) && subs[j].handle == h {
      assert subs[j] in subs;
    }
    if s :| s in subs && s.handle == h && t.ForAll? {
      var j :| 0 <= j < |subs| && subs[j] == s;
    }
  }

  lemma AllTold(m: Machine, e: Event, h: int)
    requires m.kind == Ds && Distinct(m.subs) && (e.ConnReleased? || e.Denied?)
    ensures var eff := NotifyAll(m, e, ForAll, true);
      && !Has(eff.m.subs, h)
      && (CloseStatus(h, true) in eff.out <==> e.ConnReleased? && Has(m.subs, h))
      && (PostSupl(h) in eff.out <==> e.Denied? && Has(m.subs, h))
  {
    RoundTells(e, m.subs, |m.subs|, ForAll, h);
    RoundTakesOut(m.subs, ForAll, h);
    ReachedIsListed(m.subs, ForAll, h);
    hide Kept, Notices, RetriesOver, Has, Reached;
  }

  lemma DepartTells(m: Machine, i: nat, h: int)
    requires m.kind == Ds && Distinct(m.subs) && i < |m.subs|
    ensures var d := Depart(m, i); CloseStatus(h, true) in d.out <==> Leaves(m, d, h)
  {
    var s := m.subs[i];
    var d := Depart(m, i);
    assert s in m.subs;
    if s.waitForClose {
      assert d.m.subs[i].handle == s.handle;
      if x :| x in m.subs && x.handle == h {
        var j :| 0 <= j < |m.subs| && m.subs[j] == x;
        assert d.m.subs[j] in d.m.subs && d.m.subs[j].handle == h;
      }
    } else {
      forall x ensures x in d.m.subs <==> x in m.subs && x.handle != s.handle {
        WithoutMember(m.subs, |m.subs|, s.handle, x);
      }
      hide Without;
    }
  }

  lemma WindTellsNobody(m: Machine, env: Env, h: int)
    requires m.kind == Ds
    ensures var w := Wind(m, env); w.m.subs == m.subs && CloseStatus(h, true) !in w.out
  {
    ConnTellsNobody(m.(state := Released), false, env, h);
    ConnTellsNobody(m.(state := Releasing), false, env, h);
    hide Conn, AnyActive;
  }

  lemma UnsubscribeTells(m: Machine, g: int, env: Env, h: int)
    requires m.kind == Ds && Distinct(m.subs)
    ensures var eff := OnUnsubscribe(m, g, env);
      CloseStatus(h, true) in eff.out <==>
      Leaves(m, eff, h) || (g == h && m.state == Released && Has(m.subs, h))
    ensures m.state == Released ==> OnUnsubscribe(m, g, env).m.subs == m.subs
  {
    var i := Find(m.subs, g);
    assert i < |m.subs| ==> m.subs[i] in m.subs;
    if i < |m.subs| && m.state != Released {
      var d := Depart(m, i);
      DepartTells(m, i, h);
      WindTellsNobody(d.m, env, h);
    }
    hide Depart, Wind, Find;
  }

  lemma SubscribeTellsNobody(m: Machine, g: int, wait: bool, env: Env, h: int)
    requires m.kind == Ds
    ensures var eff := OnSubscribe(m, g, wait, env); CloseStatus(h, true) !in eff.out && !Leaves(m, eff, h)
  {
    var subs := Add(m.subs, Subscriber(g, wait, false));
    AddKeeps(m.subs, Subscriber(g, wait, false), h);
    ConnTellsNobody(m.(subs := subs), true, env, h);
    hide Conn, Has, Add;
  }

  lemma GrantClosesNobody(m: Machine, h: int)
    requires m.kind == Ds
    ensures var eff := OnGranted(m); CloseStatus(h, true) !in eff.out && !Leaves(m, eff, h)
  {
    RoundTells(Granted, m.subs, |m.subs|, ForActive, h);
    KeptAll(m.subs, |m.subs|, ForActive);
    assert m.subs[..|m.subs|] == m.subs;
    hide Kept, Notices, Has;
  }

  // The data call is denied while it is pending, or closed by the client, which is handled alike.
  predicate Refused(m: Machine, e: Event) { (e.Denied? || e.ConnReleased?) && m.state == Pending }

  // In every event but a modem restart, with distinct handles: a handle is told that it is closed
  // exactly if it leaves the list, but for two cases.  A refusal takes everybody out, the inactive
  // included, and posts a plain request for each; and a release while the machine is released
  // tells its handle so, and leaves it listed.
  lemma LeavesExactlyWhen(m: Machine, e: Event, env: Env, h: int)
    requires m.kind == Ds && Distinct(m.subs) && !e.ModemRestart?
    ensures var eff := Step(m, e, env);
      && (CloseStatus(h, true) in eff.out <==>
            || (Leaves(m, eff, h) && !Refused(m, e))
            || (e == Unsubscribe(h) && m.state == Released && Has(m.subs, h)))
      && (Refused(m, e) ==> !Has(eff.m.subs, h) && (PostSupl(h) in eff.out <==> Has(m.subs, h)))
  {
    match e {
      case Subscribe(g, wait) => SubscribeTellsNobody(m, g, wait, env, h);
      case Unsubscribe(g) => UnsubscribeTells(m, g, env, h);
      case Granted => GrantClosesNobody(m, h);
      case RetryTimer =>
      case _ =>
        ClosedTells(m, env, h);
        AllTold(m.(state := Released), ConnReleased, h);
        AllTold(m.(state := Released), Denied, h);
    }
    hide OnSubscribe, OnUnsubscribe, OnGranted, OnClosed, NotifyAll, Has, FirstActive, Distinct;
  }

  lemma AddKeeps(subs: seq<Subscriber>, s: Subscriber, h: int)
    ensures Has(subs, h) ==> Has(Add(subs, s), h)
  {
    if x :| x in subs && x.handle == h {
      assert x in Add(subs, s);
    }
  }

  // So in every run of the DS machine: who is no longer listed was told of the close, was posted to
  // the plain machine, or was dropped by a restart.
  lemma GoneWasTold(run: seq<Input>, k: nat, h: int)
    requires k < |run| && Has(After(Ds, run, k).subs, h) && !Has(After(Ds, run, k + 1).subs, h)
    ensures
      || run[k].e.ModemRestart?
      || (Refused(After(Ds, run, k), run[k].e) && PostSupl(h) in Calls(Ds, run, k))
      || (!Refused(After(Ds, run, k), run[k].e) && CloseStatus(h, true) in Calls(Ds, run, k))
  {
    hide Step, Has;
    KindIsFixed(Ds, run, k);
    HandlesAreDistinct(Ds, run, k);
    if !run[k].e.ModemRestart? {
      LeavesExactlyWhen(After(Ds, run, k), run[k].e, run[k].env, h);
    }
  }

  // A subscriber that leaves before the call is opened, and waits for its close, is posted to the
  // plain machine when the call is closed instead, and never told of the close.
  const PARKED := Machine(Ds, Pending, [Subscriber(1, true, true), Subscriber(2, true, false)], 0)

  lemma RefusalRepostsInactive()
    ensures var env := Env(true, true, Success);
      var run := [Input(Subscribe(1, true), env), Input(Subscribe(2, true), env), Input(Unsubscribe(1), env),
                  Input(ConnReleased, env)];
      && After(Ds, run, 3) == PARKED && After(Ds, run, 4).subs == []
      && PostSupl(1) in Calls(Ds, run, 3) && CloseStatus(1, true) !in Calls(Ds, run, 3)
  {
    var env := Env(true, true, Success);
    var run := [Input(Subscribe(1, true), env), Input(Subscribe(2, true), env), Input(Unsubscribe(1), env),
                Input(ConnReleased, env)];
    ParkedIsReached(env);
    OneIsParked(env);
    assert PARKED.subs[0].handle == 1 && PARKED.subs[0] in PARKED.subs;
    LeavesExactlyWhen(PARKED, ConnReleased, env, 1);
    assert Step(PARKED, ConnReleased, env).m.subs == [] by {
      KeptNone(PARKED.subs, |PARKED.subs|);
    }
    hide Step;
    var (one, two) := (Subscriber(1, true, false), Subscriber(2, true, false));
    assert After(Ds, run, 1) == Machine(Ds, Pending, [one], 0);
    assert After(Ds, run, 2) == Machine(Ds, Pending, [one, two], 0);
    assert After(Ds, run, 3) == PARKED;
    assert After(Ds, run, 4) == Step(PARKED, ConnReleased, env).m;
  }

  lemma ParkedIsReached(env: Env)
    requires env == Env(true, true, Success)
    ensures var (one, two) := (Subscriber(1, true, false), Subscriber(2, true, false));
      && Step(Init(Ds), Subscribe(1, true), env).m == Machine(Ds, Pending, [one], 0)
      && Step(Machine(Ds, Pending, [one], 0), Subscribe(2, true), env).m == Machine(Ds, Pending, [one, two], 0)
  {
    var (one, two) := (Subscriber(1, true, false), Subscriber(2, true, false));
    assert Add([], one) == [one] && FirstActive([one]) == 0;
    assert Add([one], two) == [one] + [two] == [one, two];
  }

  lemma OneIsParked(env: Env)
    ensures Step(Machine(Ds, Pending, [Subscriber(1, true, false), Subscriber(2, true, false)], 0),
                 Unsubscribe(1), env).m == PARKED
  {
    var both := [Subscriber(1, true, false), Subscriber(2, true, false)];
    assert Find(both, 1) == 0 && both[0 := Subscriber(1, true, true)] == PARKED.subs;
    assert PARKED.subs[1] in PARKED.subs;
    hide Conn;
  }

  /* ---------- who is listed while released ---------- */

  // On entering RELEASED nobody is listed.
  lemma EntryEmptiesList(m: Machine, e: Event, env: Env)
    requires m.state != Released && Step(m, e, env).m.state == Released && !e.ModemRestart?
    ensures Step(m, e, env).m.subs == []
  {
    match e {
      case Unsubscribe(h) => UnsubscribeEntry(m, h, env);
      case ConnReleased => CloseEntry(m, env);
      case Denied => CloseEntry(m, env);
      case Subscribe(h, wait) =>
      case Granted =>
      case RetryTimer =>
    }
    hide OnUnsubscribe, OnReleased, OnDenied, Notices;
  }

  lemma UnsubscribeEntry(m: Machine, h: int, env: Env)
    requires m.state != Released && OnUnsubscribe(m, h, env).m.state == Released
    ensures OnUnsubscribe(m, h, env).m.subs == []
  {
    var i := Find(m.subs, h);
    if i < |m.subs| {
      var d := Depart(m, i).m;
      ConnKeepsList(d.(state := Released), false, env);
      ConnKeepsList(d.(state := Releasing), false, env);
    }
    hide Conn, Find, Without, AnyActive;
  }

  lemma SomeMember(subs: seq<Subscriber>)
    ensures subs == [] || exists s :: s in subs
  {
    if subs != [] {
      assert subs[0] in subs;
    }
  }

  lemma CloseEntry(m: Machine, env: Env)
    ensures m.state != Released && OnReleased(m, env).m.state == Released ==> OnReleased(m, env).m.subs == []
    ensures m.state != Released && OnDenied(m, env).m.state == Released ==> OnDenied(m, env).m.subs == []
  {
    KeptNone(m.subs, |m.subs|);
    var n := NotifyAll(m, ConnReleased, ForInactive, true).m;
    ConnKeepsList(n.(state := Pending), true, env);
    if !AnyActive(n.subs) {
      forall s ensures s !in n.subs {
        KeptMember(m.subs, |m.subs|, ForInactive, true, s);
      }
      SomeMember(n.subs);
    }
    hide Conn, Notices, RetriesOver, Kept;
  }

  // While released, only a subscription and a restart change the list.
  lemma ReleasedKeepsList(m: Machine, e: Event, env: Env)
    requires m.state == Released && !e.ModemRestart?
    ensures var t := Step(m, e, env).m;
      if e.Subscribe? then t.subs == Add(m.subs, Subscriber(e.handle, e.waitForClose, false)) && t.subs != []
      else t.subs == m.subs
  {
    if e.Subscribe? {
      ConnKeepsList(m.(subs := Add(m.subs, Subscriber(e.handle, e.waitForClose, false))), true, env);
    }
    hide Conn, Find;
  }

  // Somebody has subscribed since the machine was last released, or restarted.
  ghost predicate SubscribedSince(kind: Kind, run: seq<Input>, k: nat)
    requires k <= |run|
  {
    k > 0 && !run[k - 1].e.ModemRestart? && After(kind, run, k - 1).state == Released &&
    (run[k - 1].e.Subscribe? || SubscribedSince(kind, run, k - 1))
  }

  // In every run of either machine, with modem restarts: while it is released, its list is empty
  // exactly if nobody has subscribed since then.
  lemma {:induction false} ReleasedIsEmptyIff(kind: Kind, run: seq<Input>, k: nat)
    requires k <= |run| && After(kind, run, k).state == Released
    ensures After(kind, run, k).subs == [] <==> !SubscribedSince(kind, run, k)
  {
    hide Step;
    if k > 0 {
      var (m, e, env) := (After(kind, run, k - 1), run[k - 1].e, run[k - 1].env);
      if e.ModemRestart? {
        RestartEmpties(m, env);
      } else if m.state != Released {
        EntryEmptiesList(m, e, env);
      } else {
        ReleasedIsEmptyIff(kind, run, k - 1);
        ReleasedKeepsList(m, e, env);
      }
    }
  }

  lemma RestartEmpties(m: Machine, env: Env)
    ensures Step(m, ModemRestart, env).m.subs == []
  {
  }
}
