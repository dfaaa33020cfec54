/**
 What one event does to a machine of either kind: who is listed afterwards, in which state it is,
 and which calls it makes, each exactly and from the state before.  For a base machine it follows
 over runs when its connection is open, and that somebody has then asked for it.
 */
module AgpsSteps {
  import opened Agps
  import opened AgpsRuns
  import DsLists

  /* ---------- who is listed ---------- */

  // The connection is over for everybody: closed, or refused.
  predicate EndsForAll(m: Machine, e: Event) {
    || (e.ConnReleased? && (m.state == Acquired || (m.state == Pending && m.kind.Ds?)))
    || (e.Denied? && m.state == Pending)
  }

  // It is over for those who have left, and wait to be told.
  predicate EndsForInactive(m: Machine, e: Event) { (e.ConnReleased? || e.Denied?) && m.state == Releasing }

  ghost predicate Remains(m: Machine, e: Event, s: Subscriber) {
    match e
    case Subscribe(h, wait) => s in m.subs || (s == Subscriber(h, wait, false) && !Has(m.subs, h))
    case Unsubscribe(h) =>
      if m.state == Released || s.handle != h then s in m.subs
      else s.inactive && s.waitForClose && (s in m.subs || s.(inactive := false) in m.subs)
    case ModemRestart => false
    case _ => s in m.subs && !EndsForAll(m, e) && !(EndsForInactive(m, e) && s.inactive)
  }

  // Those of before come in the order of before, and a new one comes last.
  ghost predicate InOrder(subs: seq<Subscriber>, after: seq<Subscriber>) {
    forall i, j :: 0 <= i < j < |after| ==> Find(subs, after[i].handle) < Find(subs, after[j].handle)
  }

  lemma FindIs(subs: seq<Subscriber>, i: nat)
    requires Distinct(subs) && i < |subs|
    ensures Find(subs, subs[i].handle) == i
  {
    var j := Find(subs, subs[i].handle);
    hide Find;
  }

  lemma FindHas(subs: seq<Subscriber>, h: int)
    ensures Find(subs, h) < |subs| <==> Has(subs, h)
  {
    var j := Find(subs, h);
    assert j < |subs| ==> subs[j] in subs;
    hide Find;
  }

  lemma SameInOrder(subs: seq<Subscriber>)
    requires Distinct(subs)
    ensures InOrder(subs, subs)
  {
    forall i | 0 <= i < |subs| ensures Find(subs, subs[i].handle) == i {
      FindIs(subs, i);
    }
    hide Find;
  }

  lemma AddInOrder(subs: seq<Subscriber>, s: Subscriber)
    requires Distinct(subs)
    ensures InOrder(subs, Add(subs, s))
  {
    SameInOrder(subs);
    FindHas(subs, s.handle);
    forall i | 0 <= i < |subs| ensures Find(subs, subs[i].handle) == i {
      FindIs(subs, i);
    }
    hide Find, Has;
  }

  lemma {:induction false} KeptInOrder(subs: seq<Subscriber>, k: nat, t: Target, delete: bool)
    requires k <= |subs| && Distinct(subs)
    ensures InOrder(subs, Kept(subs, k, t, delete))
    ensures forall i :: 0 <= i < |Kept(subs, k, t, delete)| ==> Find(subs, Kept(subs, k, t, delete)[i].handle) < k
  {
    if k > 0 {
      KeptInOrder(subs, k - 1, t, delete);
      FindIs(subs, k - 1);
    }
    hide Find;
  }

  lemma {:induction false} WithoutInOrder(subs: seq<Subscriber>, k: nat, h: int)
    requires k <= |subs| && Distinct(subs)
    ensures InOrder(subs, Without(subs, k, h))
    ensures forall i :: 0 <= i < |Without(subs, k, h)| ==> Find(subs, Without(subs, k, h)[i].handle) < k
  {
    if k > 0 {
      WithoutInOrder(subs, k - 1, h);
      FindIs(subs, k - 1);
    }
    hide Find;
  }

  lemma DepartList(m: Machine, i: nat, s: Subscriber)
    requires Distinct(m.subs) && i < |m.subs|
    ensures var subs := Depart(m, i).m.subs;
      && InOrder(m.subs, subs)
      && (s in subs <==>
            if s.handle != m.subs[i].handle then s in m.subs
            else s.inactive && s.waitForClose && (s in m.subs || s.(inactive := false) in m.subs))
  {
    var (h, d) := (m.subs[i].handle, Depart(m, i).m.subs);
    assert forall x :: x in m.subs && x.handle == h ==> x == m.subs[i];
    assert m.subs[i] in m.subs;
    if m.subs[i].waitForClose {
      SameInOrder(m.subs);
      assert forall j :: 0 <= j < |d| ==> d[j].handle == m.subs[j].handle;
      assert d[i] in d;
      if s in m.subs && s.handle != h {
        var j :| 0 <= j < |m.subs| && m.subs[j] == s;
        assert d[j] == s;
      }
      assert s.(inactive := false) in m.subs && s.handle == h ==> s.(inactive := false) == m.subs[i];
    } else {
      WithoutMember(m.subs, |m.subs|, h, s);
      WithoutInOrder(m.subs, |m.subs|, h);
      hide Without;
    }
    hide Find;
  }

  lemma UnsubscribeDeparts(m: Machine, h: int, env: Env)
    ensures OnUnsubscribe(m, h, env).m.subs ==
      var i := Find(m.subs, h); if i == |m.subs| || m.state == Released then m.subs else Depart(m, i).m.subs
  {
    var i := Find(m.subs, h);
    if i < |m.subs| {
      var d := Depart(m, i).m;
      ConnKeepsList(d.(state := Released), false, env);
      ConnKeepsList(d.(state := Releasing), false, env);
    }
    hide Conn, Find, Depart, AnyActive;
  }

  lemma UnsubscribeList(m: Machine, h: int, env: Env, s: Subscriber)
    requires Distinct(m.subs)
    ensures var subs := OnUnsubscribe(m, h, env).m.subs;
      InOrder(m.subs, subs) && (s in subs <==> Remains(m, Unsubscribe(h), s))
  {
    UnsubscribeDeparts(m, h, env);
    hide OnUnsubscribe, Find, Depart, InOrder, Distinct;
    var i := Find(m.subs, h);
    FindHas(m.subs, h);
    SameInOrder(m.subs);
    if i < |m.subs| {
      DepartList(m, i, s);
    }
  }

  lemma RoundList(m: Machine, e: Event, t: Target, delete: bool, s: Subscriber)
    requires Distinct(m.subs)
    ensures var subs := NotifyAll(m, e, t, delete).m.subs;
      InOrder(m.subs, subs) && (s in subs <==> s in m.subs && !(delete && Hit(s, t)))
  {
    KeptMember(m.subs, |m.subs|, t, delete, s);
    KeptInOrder(m.subs, |m.subs|, t, delete);
    hide Kept, InOrder;
  }

  lemma ClosedList(m: Machine, env: Env, s: Subscriber)
    requires Distinct(m.subs)
    ensures var subs := OnClosed(m, env).m.subs;
      InOrder(m.subs, subs) && (s in subs <==> s in m.subs && !s.inactive)
  {
    RoundList(m, ConnReleased, ForInactive, true, s);
    ConnKeepsList(NotifyAll(m, ConnReleased, ForInactive, true).m.(state := Pending), true, env);
    hide Conn, NotifyAll, InOrder, AnyActive;
  }

  lemma GrantedList(m: Machine, s: Subscriber)
    requires Distinct(m.subs)
    ensures var subs := OnGranted(m).m.subs; InOrder(m.subs, subs) && (s in subs <==> s in m.subs)
  {
    SameInOrder(m.subs);
    RoundList(m.(state := Acquired), Granted, ForActive, false, s);
    hide NotifyAll, InOrder, Distinct;
  }

  lemma ReleasedList(m: Machine, env: Env, s: Subscriber)
    requires Distinct(m.subs)
    ensures var subs := OnReleased(m, env).m.subs;
      InOrder(m.subs, subs) &&
      (s in subs <==> s in m.subs && m.state != Acquired && !(m.state == Releasing && s.inactive))
  {
    SameInOrder(m.subs);
    RoundList(m.(state := Released), ConnReleased, ForAll, true, s);
    ClosedList(m, env, s);
    hide OnClosed, NotifyAll, InOrder, Distinct;
  }

  lemma DeniedList(m: Machine, env: Env, s: Subscriber)
    requires Distinct(m.subs)
    ensures var subs := OnDenied(m, env).m.subs;
      InOrder(m.subs, subs) &&
      (s in subs <==> s in m.subs && m.state != Pending && !(m.state == Releasing && s.inactive))
  {
    SameInOrder(m.subs);
    RoundList(m.(state := Released), Denied, ForAll, true, s);
    ClosedList(m, env, s);
    hide OnClosed, NotifyAll, InOrder, Distinct;
  }

  lemma SubscribeList(m: Machine, h: int, wait: bool, env: Env, s: Subscriber)
    requires Distinct(m.subs)
    ensures var subs := OnSubscribe(m, h, wait, env).m.subs;
      InOrder(m.subs, subs) && (s in subs <==> Remains(m, Subscribe(h, wait), s))
  {
    AddInOrder(m.subs, Subscriber(h, wait, false));
    ConnKeepsList(m.(subs := Add(m.subs, Subscriber(h, wait, false))), true, env);
    hide Conn, InOrder, Distinct, Has;
  }

  // Who is listed after an event, on either machine: with distinct handles, exactly who remains, and
  // in the order of before.
  lemma ListIsExact(m: Machine, e: Event, env: Env, s: Subscriber)
    requires Distinct(m.subs)
    ensures var subs := Step(m, e, env).m.subs;
      InOrder(m.subs, subs) && (s in subs <==> Remains(m, e, s))
  {
    hide OnSubscribe, OnUnsubscribe, OnGranted, OnReleased, OnDenied, FirstActive, Distinct, Has, InOrder;
    match e {
      case Subscribe(h, wait) => SubscribeList(m, h, wait, env, s);
      case Unsubscribe(h) => UnsubscribeList(m, h, env, s);
      case RetryTimer => SameInOrder(m.subs);
      case ModemRestart => NobodyInOrder(m.subs);
      case Granted => GrantedList(m, s);
      case _ =>
        ReleasedList(m, env, s);
        DeniedList(m, env, s);
    }
  }

  lemma NobodyInOrder(subs: seq<Subscriber>)
    ensures InOrder(subs, [])
  {
  }

  /* ---------- in which state it is ---------- */

  // A connection that is asked for is at least on its way: the framework always takes the request,
  // a data call has to succeed.
  ghost predicate Starts(m: Machine, env: Env) {
    m.kind.Base? || (env.startFn && env.start.Success? && AnyActive(m.subs))
  }

  ghost function StateAfter(m: Machine, e: Event, env: Env, after: Machine): AgpsState {
    if EndsForAll(m, e) then Released
    else if EndsForInactive(m, e) then if AnyActive(m.subs) then Pending else Released
    else
      match e
      case Subscribe(_, _) => if m.state == Released && Starts(after, env) then Pending else m.state
      case Granted => if m.state == Pending then Acquired else m.state
      case Unsubscribe(h) =>
        if m.state == Released || !Has(m.subs, h) then m.state
        else if after.subs == [] then Released
        else if AnyActive(after.subs) then m.state
        else Releasing
      case _ => m.state
  }

  lemma ActiveIff(subs: seq<Subscriber>)
    ensures FirstActive(subs) < |subs| <==> AnyActive(subs)
  {
    var i := FirstActive(subs);
    assert i < |subs| ==> subs[i] in subs;
    hide FirstActive;
  }

  lemma SubscribeState(m: Machine, h: int, wait: bool, env: Env)
    ensures var t := OnSubscribe(m, h, wait, env).m;
      t.state == if m.state == Released && Starts(t, env) then Pending else m.state
  {
    var m1 := m.(subs := Add(m.subs, Subscriber(h, wait, false)));
    ConnKeepsList(m1, true, env);
    ActiveIff(m1.subs);
    ConnKeepsKind(m1, true, env);
    hide FirstActive, AnyActive, Add;
  }

  lemma ConnKeepsKind(m: Machine, request: bool, env: Env)
    ensures Conn(m, request, env).0.m.kind == m.kind
  {
    hide FirstActive;
  }

  lemma UnsubscribeState(m: Machine, h: int, env: Env)
    ensures var t := OnUnsubscribe(m, h, env).m; t.state == StateAfter(m, Unsubscribe(h), env, t)
  {
    var i := Find(m.subs, h);
    FindHas(m.subs, h);
    if i < |m.subs| {
      var d := Depart(m, i).m;
      NobodyIsActive();
      ConnKeepsList(d.(state := Released), false, env);
      ConnKeepsList(d.(state := Releasing), false, env);
      assert d.state == m.state;
    }
    hide Conn, Find, Without, AnyActive, Has;
  }

  lemma NobodyIsActive()
    ensures !AnyActive([])
  {
  }

  lemma ClosedState(m: Machine, env: Env)
    ensures OnClosed(m, env).m.state == if AnyActive(m.subs) then Pending else Released
  {
    var n := NotifyAll(m, ConnReleased, ForInactive, true).m;
    forall s ensures s in n.subs <==> s in m.subs && !s.inactive {
      KeptMember(m.subs, |m.subs|, ForInactive, true, s);
    }
    ConnKeepsList(n.(state := Pending), true, env);
    hide Conn, Kept, Notices, RetriesOver;
  }

  // The state of either machine after an event, from the state before and from who is listed then.
  lemma StateIsExact(m: Machine, e: Event, env: Env)
    ensures var t := Step(m, e, env).m; t.state == StateAfter(m, e, env, t)
  {
    match e {
      case Subscribe(h, wait) => SubscribeState(m, h, wait, env);
      case Unsubscribe(h) => UnsubscribeState(m, h, env);
      case ConnReleased => ClosedState(m, env);
      case Denied => ClosedState(m, env);
      case _ =>
    }
    hide OnSubscribe, OnUnsubscribe, OnClosed, Kept, Notices, RetriesOver, AnyActive, Has, FirstActive;
  }

  /* ---------- which calls it makes ---------- */

  // The first active subscriber has this handle.
  ghost predicate First(subs: seq<Subscriber>, h: int) {
    exists i :: 0 <= i < |subs| && subs[i].handle == h && !subs[i].inactive &&
      forall j :: 0 <= j < i ==> subs[j].inactive
  }

  // Somebody of this handle is reached by a round of notifications.
  ghost predicate Reaches(subs: seq<Subscriber>, t: Target, h: int) {
    exists s :: s in subs && s.handle == h && Hit(s, t)
  }

  // A connection is asked for: by the first subscriber, or again for those left at a close.
  predicate Asks(m: Machine, e: Event) { (e.Subscribe? && m.state == Released) || EndsForInactive(m, e) }

  // A data call that is tried, and one that cannot be made, or not again.
  ghost predicate Tries(m: Machine, e: Event, env: Env, after: Machine) {
    m.kind.Ds? && Asks(m, e) && AnyActive(after.subs) && env.startFn
  }

  predicate GivesUp(m: Machine, env: Env) {
    !env.startFn || env.start.Unsupported? || (env.start.EngineBusy? && m.retries >= MAX_START_DATA_CALL_RETRIES)
  }

  // The last active subscriber has left an open connection.
  predicate Closes(m: Machine, e: Event, after: Machine) {
    e.Unsubscribe? && m.state in {Pending, Acquired} && after.state in {Released, Releasing}
  }

  // When each call is made, on which kind of machine.
  ghost predicate Makes(m: Machine, e: Event, env: Env, after: Machine, a: Action) {
    match a
    case RequestConn => m.kind.Base? && m.state in {Released, Releasing} && after.state == Pending
    case ReleaseConn => m.kind.Base? && Closes(m, e, after)
    case OpenStatus(h, granted) =>
      if granted then (e.Granted? && m.state == Pending && Reaches(m.subs, ForActive, h)) ||
                      (e.Subscribe? && e.handle == h && m.state == Acquired)
      else m.kind.Base? && e.Denied? && m.state == Pending && Has(m.subs, h)
    case CloseStatus(h, known) =>
      if known then
        || (e.ConnReleased? && m.state == Acquired && Has(m.subs, h))
        || (EndsForInactive(m, e) && Reaches(m.subs, ForInactive, h))
        || (e == Unsubscribe(h) && Has(m.subs, h) && (m.state == Released || !Has(after.subs, h)))
      else e == Unsubscribe(h) && !Has(m.subs, h)
    case StartDataCall => Tries(m, e, env, after)
    case StopDataCall => m.kind.Ds? && Closes(m, e, after) && env.stopFn
    case CloseDataCall =>
      m.kind.Ds? && ((e.ConnReleased? && m.state == Acquired && m.subs != []) ||
                     (EndsForInactive(m, e) && AnyInactive(m.subs)))
    case StartRetryTimer =>
      Tries(m, e, env, after) && env.start.EngineBusy? && m.retries < MAX_START_DATA_CALL_RETRIES
    case PostSupl(h) =>
      m.kind.Ds? && ((EndsForAll(m, e) && m.state == Pending && Has(m.subs, h)) ||
                     (Asks(m, e) && First(after.subs, h) && GivesUp(m, env)))
    case PostSuplEs(h) => m.kind.Ds? && e.RetryTimer? && First(m.subs, h)
  }

  lemma FirstIs(subs: seq<Subscriber>, h: int)
    ensures First(subs, h) <==> FirstActive(subs) < |subs| && subs[FirstActive(subs)].handle == h
  {
    var i := FirstActive(subs);
    hide FirstActive;
  }

  lemma {:induction false} NoticesHave(kind: Kind, e: Event, subs: seq<Subscriber>, k: nat, t: Target, a: Action)
    requires k <= |subs|
    ensures a in Notices(kind, e, subs, k, t) <==>
      exists j :: 0 <= j < k && Hit(subs[j], t) && a in Notice(kind, e, subs[j].handle)
  {
    if k > 0 {
      NoticesHave(kind, e, subs, k - 1, t, a);
    }
    hide Notice, Hit;
  }

  lemma RoundCalls(m: Machine, e: Event, t: Target, delete: bool, a: Action)
    ensures a in NotifyAll(m, e, t, delete).out <==>
      exists s :: s in m.subs && Hit(s, t) && a in Notice(m.kind, e, s.handle)
  {
    NoticesHave(m.kind, e, m.subs, |m.subs|, t, a);
    if s :| s in m.subs && Hit(s, t) && a in Notice(m.kind, e, s.handle) {
      var j :| 0 <= j < |m.subs| && m.subs[j] == s;
    }
    hide Notice, Hit, Notices, Kept, RetriesOver;
  }

  // The calls of a round, by the call.
  lemma RoundMakes(m: Machine, e: Event, t: Target, delete: bool, a: Action)
    requires e.Granted? || e.Denied? || e.ConnReleased?
    ensures a in NotifyAll(m, e, t, delete).out <==>
      match a
      case OpenStatus(h, granted) => Reaches(m.subs, t, h) && if granted then e.Granted? else e.Denied? && m.kind.Base?
      case CloseStatus(h, known) => Reaches(m.subs, t, h) && known && e.ConnReleased?
      case PostSupl(h) => Reaches(m.subs, t, h) && e.Denied? && m.kind.Ds?
      case CloseDataCall => m.kind.Ds? && e.ConnReleased? && exists h :: Reaches(m.subs, t, h)
      case _ => false
  {
    RoundCalls(m, e, t, delete, a);
    if s :| s in m.subs && Hit(s, t) && a in Notice(m.kind, e, s.handle) {
      assert Reaches(m.subs, t, s.handle);
    }
    hide NotifyAll, Hit;
  }

  ghost predicate ConnMakes(m: Machine, request: bool, env: Env, a: Action) {
    if m.kind.Base? then a == if request then RequestConn else ReleaseConn
    else if !request && env.stopFn then a == StopDataCall
    else
      match a
      case StartDataCall => AnyActive(m.subs) && env.startFn
      case StartRetryTimer =>
        AnyActive(m.subs) && env.startFn && env.start.EngineBusy? && m.retries < MAX_START_DATA_CALL_RETRIES
      case PostSupl(h) => First(m.subs, h) && GivesUp(m, env)
      case _ => false
  }

  lemma ConnCalls(m: Machine, request: bool, env: Env, a: Action)
    ensures a in Conn(m, request, env).0.out <==> ConnMakes(m, request, env, a)
  {
    ActiveIff(m.subs);
    if a.PostSupl? {
      FirstIs(m.subs, a.handle);
    }
    hide FirstActive, AnyActive, First;
  }

  lemma SubscribeCalls(m: Machine, h: int, wait: bool, env: Env, a: Action)
    ensures var eff := OnSubscribe(m, h, wait, env); a in eff.out <==> Makes(m, Subscribe(h, wait), env, eff.m, a)
  {
    var m1 := m.(subs := Add(m.subs, Subscriber(h, wait, false)));
    ConnCalls(m1, true, env, a);
    ConnKeepsList(m1, true, env);
    SubscribeState(m, h, wait, env);
    ConnKeepsKind(m1, true, env);
    hide Conn, AnyActive, Add, First, Has, Reaches;
  }

  lemma SilentWithoutActive(m: Machine, env: Env, a: Action)
    requires !AnyActive(m.subs)
    ensures a in Conn(m, false, env).0.out <==>
      if m.kind.Base? then a == ReleaseConn else env.stopFn && a == StopDataCall
  {
    ConnCalls(m, false, env, a);
    hide Conn;
  }

  lemma WindCalls(m: Machine, env: Env, a: Action)
    requires m.state != Released
    ensures var w := Wind(m, env);
      a in w.out <==>
      && m.state in {Pending, Acquired} && w.m.state in {Released, Releasing}
      && (if m.kind.Base? then a == ReleaseConn else env.stopFn && a == StopDataCall)
  {
    NobodyIsActive();
    if !AnyActive(m.subs) {
      SilentWithoutActive(m.(state := Released), env, a);
      SilentWithoutActive(m.(state := Releasing), env, a);
    }
    ConnKeepsList(m.(state := Released), false, env);
    ConnKeepsList(m.(state := Releasing), false, env);
    hide Conn, AnyActive;
  }

  lemma DepartCalls(m: Machine, i: nat, a: Action)
    requires i < |m.subs| && Distinct(m.subs)
    ensures var d := Depart(m, i);
      && (a in d.out <==> a == CloseStatus(m.subs[i].handle, true) && !Has(d.m.subs, m.subs[i].handle))
      && d.m.kind == m.kind && d.m.state == m.state
  {
    var (h, d) := (m.subs[i].handle, Depart(m, i).m.subs);
    if m.subs[i].waitForClose {
      assert d[i] in d && d[i].handle == h;
    } else {
      forall x | x in d ensures x.handle != h {
        WithoutMember(m.subs, |m.subs|, h, x);
      }
    }
    hide Without, Distinct;
  }

  lemma UnsubscribeMakes(m: Machine, h: int, env: Env, a: Action)
    requires Distinct(m.subs)
    ensures var eff := OnUnsubscribe(m, h, env); a in eff.out <==> Makes(m, Unsubscribe(h), env, eff.m, a)
  {
    hide Find, Depart, Wind, Distinct, Has, Reaches, First, AnyActive;
    var i := Find(m.subs, h);
    FindHas(m.subs, h);
    if i == |m.subs| {
      assert OnUnsubscribe(m, h, env) == Effect(m, [CloseStatus(h, false)]);
    } else if m.state == Released {
      assert OnUnsubscribe(m, h, env) == Effect(m, [CloseStatus(h, true)]);
    } else {
      var d := Depart(m, i);
      DepartCalls(m, i, a);
      WindCalls(d.m, env, a);
      WindKeepsList(d.m, env);
    }
  }

  lemma WindKeepsList(m: Machine, env: Env)
    ensures Wind(m, env).m.subs == m.subs && (Wind(m, env).m.state == Pending ==> m.state == Pending)
  {
    ConnKeepsList(m.(state := Released), false, env);
    ConnKeepsList(m.(state := Releasing), false, env);
    hide Conn, AnyActive;
  }

  lemma ClosedCalls(m: Machine, env: Env, a: Action)
    ensures var eff := OnClosed(m, env);
      a in eff.out <==>
      || a in NotifyAll(m, ConnReleased, ForInactive, true).out
      || (AnyActive(eff.m.subs) && ConnMakes(eff.m.(retries := m.retries), true, env, a))
    ensures AnyActive(OnClosed(m, env).m.subs) <==> AnyActive(m.subs)
    ensures OnClosed(m, env).m.kind == m.kind
  {
    var n := NotifyAll(m, ConnReleased, ForInactive, true);
    ConnCalls(n.m.(state := Pending), true, env, a);
    ConnKeepsList(n.m.(state := Pending), true, env);
    ConnKeepsKind(n.m.(state := Pending), true, env);
    RoundKeepsRetries(m);
    forall s ensures s in n.m.subs <==> s in m.subs && !s.inactive {
      KeptMember(m.subs, |m.subs|, ForInactive, true, s);
    }
    hide Conn, Kept, Notices, RetriesOver, First;
  }

  lemma RoundKeepsRetries(m: Machine)
    ensures NotifyAll(m, ConnReleased, ForInactive, true).m.retries == m.retries
  {
    SameRetries(m, |m.subs|);
    hide Kept, Notices;
  }

  lemma {:induction false} SameRetries(m: Machine, k: nat)
    requires k <= |m.subs|
    ensures RetriesOver(m.kind, m.retries, ConnReleased, m.subs, k, ForInactive) == m.retries
  {
    if k > 0 {
      SameRetries(m, k - 1);
    }
  }

  lemma EndMakes(m: Machine, e: Event, env: Env, a: Action)
    requires EndsForInactive(m, e)
    ensures var eff := OnClosed(m, env); a in eff.out <==> Makes(m, e, env, eff.m, a)
  {
    hide OnClosed, NotifyAll, AnyActive, Has, First;
    ClosedCalls(m, env, a);
    ClosedState(m, env);
    RoundMakes(m, ConnReleased, ForInactive, true, a);
    ReachesInactive(m.subs);
    FirstNeedsActive(OnClosed(m, env).m.subs);
  }

  lemma ReachesInactive(subs: seq<Subscriber>)
    ensures AnyInactive(subs) <==> exists h :: Reaches(subs, ForInactive, h)
  {
    if s :| s in subs && s.inactive {
      assert Reaches(subs, ForInactive, s.handle);
    }
  }

  lemma FirstNeedsActive(subs: seq<Subscriber>)
    ensures forall h :: First(subs, h) ==> AnyActive(subs)
  {
    forall h | First(subs, h) ensures AnyActive(subs) {
      var i :| 0 <= i < |subs| && !subs[i].inactive;
      assert subs[i] in subs;
    }
  }

  lemma ReachesAll(subs: seq<Subscriber>)
    ensures forall h :: Reaches(subs, ForAll, h) <==> Has(subs, h)
    ensures (exists h :: Reaches(subs, ForAll, h)) <==> subs != []
  {
    if subs != [] {
      assert subs[0] in subs;
      assert Reaches(subs, ForAll, subs[0].handle);
    }
  }

  lemma AllEndMakes(m: Machine, e: Event, env: Env, a: Action)
    requires EndsForAll(m, e)
    ensures var told := if m.state == Acquired then ConnReleased else Denied;
      var eff := NotifyAll(m.(state := Released), told, ForAll, true);
      a in eff.out <==> Makes(m, e, env, eff.m, a)
  {
    hide NotifyAll, AnyActive, Has, First, Reaches, AnyInactive;
    var told := if m.state == Acquired then ConnReleased else Denied;
    RoundMakes(m.(state := Released), told, ForAll, true, a);
    ReachesAll(m.subs);
    RoundState(m.(state := Released), told);
  }

  lemma RoundState(m: Machine, e: Event)
    ensures NotifyAll(m, e, ForAll, true).m.state == m.state
  {
  }

  lemma GrantMakes(m: Machine, env: Env, a: Action)
    ensures var eff := OnGranted(m); a in eff.out <==> Makes(m, Granted, env, eff.m, a)
  {
    RoundMakes(m.(state := Acquired), Granted, ForActive, false, a);
    hide Kept, Notices, RetriesOver, AnyActive, Has, First, Reaches;
  }

  // Which calls an event makes, on either machine with distinct handles: each, exactly.
  lemma CallsAreExact(m: Machine, e: Event, env: Env, a: Action)
    requires Distinct(m.subs)
    ensures var eff := Step(m, e, env); a in eff.out <==> Makes(m, e, env, eff.m, a)
  {
    hide OnSubscribe, OnUnsubscribe, OnGranted, OnClosed, NotifyAll, FirstActive;
    hide Distinct, AnyActive, AnyInactive, Has, First, Reaches;
    match e {
      case Subscribe(h, wait) => SubscribeCalls(m, h, wait, env, a);
      case Unsubscribe(h) => UnsubscribeMakes(m, h, env, a);
      case Granted => GrantMakes(m, env, a);
      case RetryTimer => if a.PostSuplEs? { FirstIs(m.subs, a.handle); }
      case ModemRestart =>
      case _ =>
        if EndsForAll(m, e) {
          AllEndMakes(m, e, env, a);
        } else if EndsForInactive(m, e) {
          EndMakes(m, e, env, a);
        }
    }
  }

  /* ---------- in which order ---------- */

  // Where a call comes, if that matters: those to subscribers in the order of the list, and after
  // them the one for a connection.
  function Place(subs: seq<Subscriber>, a: Action): int {
    match a
    case OpenStatus(h, _) => Find(subs, h)
    case CloseStatus(h, _) => Find(subs, h)
    case RequestConn => |subs| + 1
    case ReleaseConn => |subs| + 1
    case StartDataCall => |subs| + 1
    case StopDataCall => |subs| + 1
    case _ => -1
  }

  ghost predicate Sequenced(subs: seq<Subscriber>, out: seq<Action>) {
    forall i, j :: 0 <= i < j < |out| && Place(subs, out[j]) >= 0 ==> Place(subs, out[i]) < Place(subs, out[j])
  }

  lemma ThenSequenced(subs: seq<Subscriber>, a: seq<Action>, b: seq<Action>, p: int)
    requires Sequenced(subs, a) && Sequenced(subs, b)
    requires forall i :: 0 <= i < |a| ==> Place(subs, a[i]) < p
    requires forall j :: 0 <= j < |b| && Place(subs, b[j]) >= 0 ==> Place(subs, b[j]) >= p
    ensures Sequenced(subs, a + b)
  {
    hide Place;
  }

  lemma {:induction false} NoticesSequenced(kind: Kind, e: Event, subs: seq<Subscriber>, k: nat, t: Target)
    requires k <= |subs| && Distinct(subs)
    ensures var out := Notices(kind, e, subs, k, t);
      Sequenced(subs, out) && forall i :: 0 <= i < |out| ==> Place(subs, out[i]) < k
  {
    if k > 0 {
      NoticesSequenced(kind, e, subs, k - 1, t);
      FindIs(subs, k - 1);
      NoticeSequenced(kind, e, subs, k - 1);
      ThenSequenced(subs, Notices(kind, e, subs, k - 1, t), Notice(kind, e, subs[k - 1].handle), k - 1);
      assert Notices(kind, e, subs, k - 1, t) + [] == Notices(kind, e, subs, k - 1, t);
    }
    hide Place, Sequenced, Notice;
  }

  lemma NoticeSequenced(kind: Kind, e: Event, subs: seq<Subscriber>, i: nat)
    requires i < |subs| && Find(subs, subs[i].handle) == i
    ensures var n := Notice(kind, e, subs[i].handle);
      Sequenced(subs, n) && forall j :: 0 <= j < |n| ==> (Place(subs, n[j]) == i || Place(subs, n[j]) == -1)
  {
  }

  lemma ConnSequenced(m: Machine, request: bool, env: Env, subs: seq<Subscriber>)
    ensures var out := Conn(m, request, env).0.out;
      Sequenced(subs, out) && forall j :: 0 <= j < |out| && Place(subs, out[j]) >= 0 ==> Place(subs, out[j]) > |subs|
  {
    hide FirstActive, Find;
  }

  lemma UnsubscribeSequenced(m: Machine, h: int, env: Env)
    ensures Sequenced(m.subs, OnUnsubscribe(m, h, env).out)
  {
    var i := Find(m.subs, h);
    if i < |m.subs| {
      var d := Depart(m, i);
      ConnSequenced(d.m.(state := Released), false, env, m.subs);
      ConnSequenced(d.m.(state := Releasing), false, env, m.subs);
      assert d.out != [] ==> d.out == [CloseStatus(h, true)];
      assert Place(m.subs, CloseStatus(h, true)) == i;
      ThenSequenced(m.subs, d.out, Wind(d.m, env).out, |m.subs|);
    }
    hide Conn, Find, Without, AnyActive;
  }

  lemma ClosedSequenced(m: Machine, env: Env)
    requires Distinct(m.subs)
    ensures Sequenced(m.subs, OnClosed(m, env).out)
  {
    var n := NotifyAll(m, ConnReleased, ForInactive, true);
    NoticesSequenced(m.kind, ConnReleased, m.subs, |m.subs|, ForInactive);
    ConnSequenced(n.m.(state := Pending), true, env, m.subs);
    ThenSequenced(m.subs, n.out, Conn(n.m.(state := Pending), true, env).0.out, |m.subs|);
    hide Conn, Notices, Kept, RetriesOver, AnyActive, Place, Sequenced;
  }

  // The subscribers are told in the order of the list, each at most once in an event, and before a
  // connection is asked for or given back; and that happens at most once.
  lemma CallsAreSequenced(m: Machine, e: Event, env: Env)
    requires Distinct(m.subs)
    ensures Sequenced(m.subs, Step(m, e, env).out)
  {
    match e {
      case Subscribe(h, wait) => ConnSequenced(m.(subs := Add(m.subs, Subscriber(h, wait, false))), true, env, m.subs);
      case Unsubscribe(h) => UnsubscribeSequenced(m, h, env);
      case RetryTimer =>
      case ModemRestart =>
      case _ =>
        ClosedSequenced(m, env);
        NoticesSequenced(m.kind, Granted, m.subs, |m.subs|, ForActive);
        NoticesSequenced(m.kind, ConnReleased, m.subs, |m.subs|, ForAll);
        NoticesSequenced(m.kind, Denied, m.subs, |m.subs|, ForAll);
    }
    hide Conn, OnUnsubscribe, OnClosed, Notices, Kept, RetriesOver, FirstActive, Find;
  }

  // In every run of either machine, with modem restarts, all of this holds of every event.
  lemma EventsAreExact(kind: Kind, run: seq<Input>, k: nat, s: Subscriber, a: Action)
    requires k < |run|
    ensures var (m, e, env, t) := (After(kind, run, k), run[k].e, run[k].env, After(kind, run, k + 1));
      && (s in t.subs <==> Remains(m, e, s)) && InOrder(m.subs, t.subs)
      && t.state == StateAfter(m, e, env, t)
      && (a in Calls(kind, run, k) <==> Makes(m, e, env, t, a)) && Sequenced(m.subs, Calls(kind, run, k))
  {
    var (m, e, env) := (After(kind, run, k), run[k].e, run[k].env);
    HandlesAreDistinct(kind, run, k);
    ListIsExact(m, e, env, s);
    StateIsExact(m, e, env);
    CallsAreExact(m, e, env, a);
    CallsAreSequenced(m, e, env);
    assert After(kind, run, k + 1) == Step(m, e, env).m;
    hide Step, After, Remains, InOrder, StateAfter, Makes, Sequenced, Distinct;
  }
}
