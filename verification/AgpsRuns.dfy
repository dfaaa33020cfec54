/**
 What every run of the base AGPS machine keeps: the shape of its subscriber list, the bracketing
 of its framework calls, the conservation of subscribers, and who has been told of a grant.
 */
module AgpsRuns {
  import opened Agps

  datatype Input = Input(e: Event, env: Env)

  // The machine after the first k inputs of a run, and the calls made on input k.
  function After(kind: Kind, run: seq<Input>, k: nat): Machine
    requires k <= |run|
  {
    if k == 0 then Init(kind) else Step(After(kind, run, k - 1), run[k - 1].e, run[k - 1].env).m
  }

  function Calls(kind: Kind, run: seq<Input>, k: nat): seq<Action>
    requires k < |run|
  {
    Step(After(kind, run, k), run[k].e, run[k].env).out
  }

  ghost predicate NoRestart(run: seq<Input>) { forall i :: 0 <= i < |run| ==> !run[i].e.ModemRestart? }

  lemma StepKeepsKind(m: Machine, e: Event, env: Env)
    ensures Step(m, e, env).m.kind == m.kind
  {
    hide Kept, Notices, RetriesOver, Find, FirstActive, Without, AnyActive, Has;
  }

  lemma {:induction false} KindIsFixed(kind: Kind, run: seq<Input>, k: nat)
    requires k <= |run|
    ensures After(kind, run, k).kind == kind
  {
    hide Step;
    if k > 0 {
      KindIsFixed(kind, run, k - 1);
      StepKeepsKind(After(kind, run, k - 1), run[k - 1].e, run[k - 1].env);
    }
  }

  /* ---------- counting subscribers and notifications ---------- */

  // How many of the first k subscribers have this handle.
  ghost function Count(subs: seq<Subscriber>, k: nat, h: int): nat
    requires k <= |subs|
  {
    if k == 0 then 0 else Count(subs, k - 1, h) + if subs[k - 1].handle == h then 1 else 0
  }

  ghost function Listed(m: Machine, h: int): nat { Count(m.subs, |m.subs|, h) }

  // A call that tells this handle the connection is over for it: closed, or never opened.
  predicate Terminal(a: Action, h: int) { a == CloseStatus(h, true) || a == OpenStatus(h, false) }

  ghost function Terminals(out: seq<Action>, k: nat, h: int): nat
    requires k <= |out|
  {
    if k == 0 then 0 else Terminals(out, k - 1, h) + if Terminal(out[k - 1], h) then 1 else 0
  }

  ghost function Told(out: seq<Action>, h: int): nat { Terminals(out, |out|, h) }

  ghost predicate Distinct(subs: seq<Subscriber>) {
    forall i, j :: 0 <= i < j < |subs| ==> subs[i].handle != subs[j].handle
  }

  ghost predicate AnyInactive(subs: seq<Subscriber>) { exists s :: s in subs && s.inactive }

  lemma {:induction false} CountPrefix(a: seq<Subscriber>, s: Subscriber, k: nat, h: int)
    requires k <= |a|
    ensures Count(a + [s], k, h) == Count(a, k, h)
  {
    if k > 0 { CountPrefix(a, s, k - 1, h); }
  }

  lemma CountSnoc(a: seq<Subscriber>, s: Subscriber, h: int)
    ensures Count(a + [s], |a| + 1, h) == Count(a, |a|, h) + if s.handle == h then 1 else 0
  {
    CountPrefix(a, s, |a|, h);
  }

  lemma {:induction false} CountMember(subs: seq<Subscriber>, k: nat, h: int)
    requires k <= |subs|
    ensures Count(subs, k, h) > 0 <==> exists j :: 0 <= j < k && subs[j].handle == h
    ensures Distinct(subs) ==> Count(subs, k, h) <= 1
  {
    if k > 0 { CountMember(subs, k - 1, h); }
  }

  lemma HasByCount(m: Machine, h: int)
    ensures Has(m.subs, h) <==> Listed(m, h) > 0
    ensures Distinct(m.subs) ==> Listed(m, h) <= 1
  {
    CountMember(m.subs, |m.subs|, h);
    if j: nat :| j < |m.subs| && m.subs[j].handle == h { assert m.subs[j] in m.subs; }
  }

  lemma {:induction false} TerminalsAppend(a: seq<Action>, b: seq<Action>, k: nat, h: int)
    requires k <= |a| + |b|
    ensures Terminals(a + b, k, h) ==
            if k <= |a| then Terminals(a, k, h) else Told(a, h) + Terminals(b, k - |a|, h)
  {
    if k > 0 { TerminalsAppend(a, b, k - 1, h); }
  }

  lemma ToldAppend(a: seq<Action>, b: seq<Action>, h: int)
    ensures Told(a + b, h) == Told(a, h) + Told(b, h)
  {
    TerminalsAppend(a, b, |a| + |b|, h);
  }

  lemma ToldOne(a: Action, h: int)
    ensures Told([a], h) == if Terminal(a, h) then 1 else 0
    ensures Told([], h) == 0
  {
    assert Terminals([a], 0, h) == 0;
  }

  /* ---------- notification rounds and deletions ---------- */

  lemma {:induction false} KeptMember(subs: seq<Subscriber>, k: nat, t: Target, delete: bool, s: Subscriber)
    requires k <= |subs|
    ensures s in Kept(subs, k, t, delete) <==>
            (!(delete && Hit(s, t)) && exists j :: 0 <= j < k && subs[j] == s)
  {
    if k > 0 { KeptMember(subs, k - 1, t, delete, s); }
  }

  lemma {:induction false} KeptAll(subs: seq<Subscriber>, k: nat, t: Target)
    requires k <= |subs|
    ensures Kept(subs, k, t, false) == subs[..k]
  {
    if k > 0 { KeptAll(subs, k - 1, t); }
  }

  lemma {:induction false} KeptNone(subs: seq<Subscriber>, k: nat)
    requires k <= |subs|
    ensures Kept(subs, k, ForAll, true) == []
  {
    if k > 0 { KeptNone(subs, k - 1); }
  }

  lemma {:induction false} KeptDistinct(subs: seq<Subscriber>, k: nat, t: Target, delete: bool)
    requires k <= |subs| && Distinct(subs)
    ensures Distinct(Kept(subs, k, t, delete))
  {
    if k > 0 {
      KeptDistinct(subs, k - 1, t, delete);
      forall s | s in Kept(subs, k - 1, t, delete) ensures s.handle != subs[k - 1].handle {
        KeptMember(subs, k - 1, t, delete, s);
      }
    }
  }

  // A round that deletes tells exactly the subscribers it removes, once each.
  lemma {:induction false} RoundConserves(e: Event, subs: seq<Subscriber>, k: nat, t: Target, h: int)
    requires k <= |subs| && (e.ConnReleased? || e.Denied?)
    ensures var (kept, out) := (Kept(subs, k, t, true), Notices(Base, e, subs, k, t));
      Count(kept, |kept|, h) + Told(out, h) == Count(subs, k, h)
  {
    if k > 0 {
      RoundConserves(e, subs, k - 1, t, h);
      var s := subs[k - 1];
      var n := Notice(Base, e, s.handle);
      assert n == [n[0]];
      ToldOne(n[0], h);
      var (kept, out) := (Kept(subs, k - 1, t, true), Notices(Base, e, subs, k - 1, t));
      ToldAppend(out, n, h);
      CountSnoc(kept, s, h);
      assert out + [] == out && kept + [] == kept;
    }
  }

  lemma {:induction false} GrantsAreNotTerminal(subs: seq<Subscriber>, k: nat, t: Target, h: int)
    requires k <= |subs|
    ensures Told(Notices(Base, Granted, subs, k, t), h) == 0
  {
    if k > 0 {
      GrantsAreNotTerminal(subs, k - 1, t, h);
      var n := Notice(Base, Granted, subs[k - 1].handle);
      ToldOne(n[0], h);
      var out := Notices(Base, Granted, subs, k - 1, t);
      ToldAppend(out, n, h);
      assert out + [] == out;
    }
  }

  lemma {:induction false} WithoutMember(subs: seq<Subscriber>, k: nat, h: int, s: Subscriber)
    requires k <= |subs|
    ensures s in Without(subs, k, h) <==> (s.handle != h && exists j :: 0 <= j < k && subs[j] == s)
  {
    if k > 0 { WithoutMember(subs, k - 1, h, s); }
  }

  lemma {:induction false} WithoutDistinct(subs: seq<Subscriber>, k: nat, h: int)
    requires k <= |subs| && Distinct(subs)
    ensures Distinct(Without(subs, k, h))
  {
    if k > 0 {
      WithoutDistinct(subs, k - 1, h);
      forall s | s in Without(subs, k - 1, h) ensures s.handle != subs[k - 1].handle {
        WithoutMember(subs, k - 1, h, s);
      }
    }
  }

  lemma {:induction false} WithoutCount(subs: seq<Subscriber>, k: nat, h: int, g: int)
    requires k <= |subs|
    ensures var w := Without(subs, k, h); Count(w, |w|, g) == if g == h then 0 else Count(subs, k, g)
  {
    if k > 0 {
      WithoutCount(subs, k - 1, h, g);
      var w := Without(subs, k - 1, h);
      CountSnoc(w, subs[k - 1], g);
      assert w + [] == w;
    }
  }

  lemma {:induction false} ParkCount(subs: seq<Subscriber>, i: nat, s: Subscriber, k: nat, h: int)
    requires i < |subs| && k <= |subs| && s.handle == subs[i].handle
    ensures Count(subs[i := s], k, h) == Count(subs, k, h)
  {
    if k > 0 { ParkCount(subs, i, s, k - 1, h); }
  }

  /* ---------- the shape of a machine ---------- */

  // Without a modem restart.
  ghost predicate Shape(m: Machine) {
    && Distinct(m.subs)
    && (m.state == Released ==> m.subs == [])
    && (m.state in {Pending, Acquired} ==> AnyActive(m.subs))
    && (m.state == Releasing ==> AnyInactive(m.subs))
    && (forall s :: s in m.subs && s.inactive ==> s.waitForClose)
  }

  // With modem restarts, which empty the list and leave the state alone.
  ghost predicate LooseShape(m: Machine) {
    && Distinct(m.subs)
    && (m.state == Released ==> m.subs == [])
    && (m.state in {Pending, Acquired} ==> m.subs == [] || AnyActive(m.subs))
    && (forall s :: s in m.subs && s.inactive ==> s.waitForClose)
  }

  lemma RoundShape(m: Machine, e: Event, t: Target, delete: bool)
    requires Distinct(m.subs) && forall s :: s in m.subs && s.inactive ==> s.waitForClose
    ensures var subs := NotifyAll(m, e, t, delete).m.subs;
      && Distinct(subs)
      && (forall s :: s in subs && s.inactive ==> s.waitForClose)
      && (forall s :: s in subs <==> s in m.subs && !(delete && Hit(s, t)))
  {
    KeptDistinct(m.subs, |m.subs|, t, delete);
    forall s ensures s in Kept(m.subs, |m.subs|, t, delete) <==> s in m.subs && !(delete && Hit(s, t)) {
      KeptMember(m.subs, |m.subs|, t, delete, s);
    }
  }

  lemma DepartShape(m: Machine, i: nat)
    requires i < |m.subs| && Distinct(m.subs)
    requires forall s :: s in m.subs && s.inactive ==> s.waitForClose
    ensures var subs := Depart(m, i).m.subs;
      && Distinct(subs)
      && (forall s :: s in subs && s.inactive ==> s.waitForClose)
      && (AnyInactive(m.subs) || m.subs[i].waitForClose <==> AnyInactive(subs))
      && (subs == [] ==> !m.subs[i].waitForClose)
  {
    var (subs, s) := (m.subs, m.subs[i]);
    var left := Depart(m, i).m.subs;
    if s.waitForClose {
      assert left[i] in left;
      assert forall x :: x in left ==> x == left[i] || x in subs;
    } else {
      WithoutDistinct(subs, |subs|, s.handle);
      forall x ensures x in left <==> x.handle != s.handle && x in subs {
        WithoutMember(subs, |subs|, s.handle, x);
      }
      assert forall x :: x in subs && x.inactive ==> x in left;
    }
  }

  lemma SubscribeKeepsShape(m: Machine, h: int, wait: bool, env: Env)
    requires m.kind == Base && LooseShape(m)
    ensures var next := OnSubscribe(m, h, wait, env).m; LooseShape(next) && (Shape(m) ==> Shape(next))
  {
  }

  lemma UnsubscribeKeepsShape(m: Machine, h: int, env: Env)
    requires m.kind == Base && LooseShape(m)
    ensures var next := OnUnsubscribe(m, h, env).m; LooseShape(next) && (Shape(m) ==> Shape(next))
  {
    var i := Find(m.subs, h);
    if i < |m.subs| {
      DepartShape(m, i);
      hide Depart;
      var subs := Depart(m, i).m.subs;
      assert subs == [] || AnyActive(subs) || AnyInactive(subs) by {
        if subs != [] { assert subs[0] in subs; }
      }
    }
  }

  lemma GrantedKeepsShape(m: Machine)
    requires m.kind == Base && LooseShape(m)
    ensures var next := OnGranted(m).m; LooseShape(next) && (Shape(m) ==> Shape(next))
  {
    RoundShape(m.(state := Acquired), Granted, ForActive, false);
    hide Kept;
  }

  lemma ClosedKeepsShape(m: Machine, env: Env)
    requires m.kind == Base && LooseShape(m)
    ensures Shape(OnClosed(m, env).m) && LooseShape(OnClosed(m, env).m)
  {
    RoundShape(m, ConnReleased, ForInactive, true);
    var left := NotifyAll(m, ConnReleased, ForInactive, true).m.subs;
    assert left != [] ==> left[0] in left;
    hide Kept, Notices, RetriesOver, NotifyAll;
  }

  lemma CloseKeepsShape(m: Machine, e: Event, env: Env)
    requires m.kind == Base && LooseShape(m) && (e.ConnReleased? || e.Denied?)
    ensures var next := (if e.Denied? then OnDenied(m, env) else OnReleased(m, env)).m;
      LooseShape(next) && (Shape(m) ==> Shape(next))
  {
    if m.state == Releasing { ClosedKeepsShape(m, env); }
    KeptNone(m.subs, |m.subs|);
    hide Kept, OnClosed, Notices, RetriesOver;
  }

  lemma StepKeepsShape(m: Machine, e: Event, env: Env)
    requires m.kind == Base && LooseShape(m)
    ensures LooseShape(Step(m, e, env).m)
    ensures Shape(m) && !e.ModemRestart? ==> Shape(Step(m, e, env).m)
  {
    hide OnSubscribe, OnUnsubscribe, OnGranted, OnReleased, OnDenied, Shape;
    match e {
      case Subscribe(h, wait) => SubscribeKeepsShape(m, h, wait, env);
      case Unsubscribe(h) => UnsubscribeKeepsShape(m, h, env);
      case Granted => GrantedKeepsShape(m);
      case ConnReleased => CloseKeepsShape(m, e, env);
      case Denied => CloseKeepsShape(m, e, env);
      case RetryTimer =>
      case ModemRestart =>
    }
  }

  lemma {:induction false} ReachableShape(run: seq<Input>, k: nat)
    requires k <= |run|
    ensures After(Base, run, k).kind == Base
    ensures LooseShape(After(Base, run, k))
    ensures NoRestart(run) ==> Shape(After(Base, run, k))
  {
    hide Step, Shape, LooseShape;
    KindIsFixed(Base, run, k);
    if k == 0 {
      InitShape();
    } else {
      var (m, e, env) := (After(Base, run, k - 1), run[k - 1].e, run[k - 1].env);
      ReachableShape(run, k - 1);
      StepKeepsShape(m, e, env);
      assert After(Base, run, k) == Step(m, e, env).m;
    }
  }

  lemma InitShape()
    ensures Shape(Init(Base)) && LooseShape(Init(Base))
  {
  }

  /* ---------- framework calls are well bracketed ---------- */

  // A close or denial that made the machine leave the state it was in.
  ghost predicate LeftOnClose(kind: Kind, run: seq<Input>, k: nat)
    requires k < |run|
  {
    && (run[k].e.ConnReleased? || run[k].e.Denied?)
    && After(kind, run, k).state in {Pending, Acquired, Releasing}
    && After(kind, run, k + 1).state != After(kind, run, k).state
  }

  // A base machine asks the framework for a connection exactly when it starts to wait for one, and
  // gives it back exactly when an unsubscription takes it out of the states in which it has one.
  ghost predicate Framed(m: Machine, e: Event, eff: Effect) {
    && (RequestConn in eff.out <==> m.state in {Released, Releasing} && eff.m.state == Pending)
    && (ReleaseConn in eff.out <==>
          e.Unsubscribe? && m.state in {Pending, Acquired} && eff.m.state in {Released, Releasing})
    && (m.state in {Pending, Acquired} && eff.m.state !in {Pending, Acquired} ==>
          ReleaseConn in eff.out || e.ConnReleased? || e.Denied?)
    && (m.state == Releasing && eff.m.state == Pending ==> e.ConnReleased? || e.Denied?)
  }

  lemma CloseIsFramed(m: Machine, e: Event, env: Env)
    requires m.kind == Base && (e.ConnReleased? || e.Denied?)
    ensures Framed(m, e, if e.Denied? then OnDenied(m, env) else OnReleased(m, env))
  {
    NoFrameworkNotices(e, m.subs, |m.subs|, ForAll);
    NoFrameworkNotices(ConnReleased, m.subs, |m.subs|, ForInactive);
    hide Kept, Notices, RetriesOver, AnyActive;
  }

  lemma UnsubscribeIsFramed(m: Machine, h: int, env: Env)
    requires m.kind == Base
    ensures Framed(m, Unsubscribe(h), OnUnsubscribe(m, h, env))
  {
  }

  lemma StepIsFramed(m: Machine, e: Event, env: Env)
    requires m.kind == Base
    ensures Framed(m, e, Step(m, e, env))
  {
    hide OnUnsubscribe, OnReleased, OnDenied, Notices, Kept, RetriesOver, Has;
    match e {
      case Unsubscribe(h) => UnsubscribeIsFramed(m, h, env);
      case Granted => NoFrameworkNotices(Granted, m.subs, |m.subs|, ForActive);
      case ConnReleased => CloseIsFramed(m, e, env);
      case Denied => CloseIsFramed(m, e, env);
      case _ =>
    }
  }

  lemma {:induction false} NoFrameworkNotices(e: Event, subs: seq<Subscriber>, k: nat, t: Target)
    requires k <= |subs|
    ensures RequestConn !in Notices(Base, e, subs, k, t) && ReleaseConn !in Notices(Base, e, subs, k, t)
  {
    if k > 0 { NoFrameworkNotices(e, subs, k - 1, t); }
  }

  // After a request at i, the machine waits or is connected until a release call or such a close.
  lemma {:induction false} OpenUntilClosed(run: seq<Input>, i: nat, j: nat)
    requires i < j <= |run| && RequestConn in Calls(Base, run, i)
    requires forall k :: i < k < j ==> ReleaseConn !in Calls(Base, run, k) && !LeftOnClose(Base, run, k)
    ensures After(Base, run, j).state in {Pending, Acquired}
  {
    hide Step;
    KindIsFixed(Base, run, j - 1);
    StepIsFramed(After(Base, run, j - 1), run[j - 1].e, run[j - 1].env);
    assert i + 1 < j ==> !LeftOnClose(Base, run, j - 1);
    if i + 1 < j { OpenUntilClosed(run, i, j - 1); }
  }

  // Input i asked for a connection, and up to k it was neither asked for again, nor given back, nor
  // closed or denied.
  ghost predicate LastAsked(run: seq<Input>, i: int, k: nat)
    requires k <= |run|
  {
    0 <= i < k && RequestConn in Calls(Base, run, i) && forall j :: i < j < k ==> KeepsAsking(run, j)
  }

  ghost predicate KeepsAsking(run: seq<Input>, j: nat)
    requires j < |run|
  {
    RequestConn !in Calls(Base, run, j) && ReleaseConn !in Calls(Base, run, j) && !LeftOnClose(Base, run, j)
  }

  ghost predicate Asking(run: seq<Input>, k: nat)
    requires k <= |run|
  {
    exists i :: LastAsked(run, i, k)
  }

  // It was granted since, too.
  ghost predicate Granting(run: seq<Input>, k: nat)
    requires k <= |run|
  {
    exists i :: LastAsked(run, i, k) && GrantedSince(run, i, k)
  }

  ghost predicate GrantedSince(run: seq<Input>, i: int, k: nat)
    requires k <= |run|
  {
    exists j :: 0 <= j < k && i < j && run[j].e.Granted?
  }

  lemma LastAskedStep(run: seq<Input>, i: int, k: nat)
    requires 0 < k <= |run|
    ensures LastAsked(run, i, k) <==>
      (i == k - 1 && RequestConn in Calls(Base, run, k - 1)) || (LastAsked(run, i, k - 1) && KeepsAsking(run, k - 1))
    ensures LastAsked(run, i, k - 1) ==> i < k - 1
    ensures i < k - 1 ==> (GrantedSince(run, i, k) <==> GrantedSince(run, i, k - 1) || run[k - 1].e.Granted?)
    ensures !GrantedSince(run, k - 1, k)
  {
    hide Calls, KeepsAsking;
    assert LastAsked(run, i, k) && i < k - 1 ==> KeepsAsking(run, k - 1);
    assert 0 <= i < k - 1 && run[k - 1].e.Granted? ==> GrantedSince(run, i, k);
  }

  lemma AskingStep(run: seq<Input>, k: nat)
    requires 0 < k <= |run|
    ensures Asking(run, k) <==>
      RequestConn in Calls(Base, run, k - 1) || (Asking(run, k - 1) && KeepsAsking(run, k - 1))
    ensures Granting(run, k) <==>
      KeepsAsking(run, k - 1) && (Granting(run, k - 1) || (Asking(run, k - 1) && run[k - 1].e.Granted?))
  {
    hide Calls, KeepsAsking, LastAsked, GrantedSince;
    forall i: int
      ensures LastAsked(run, i, k) <==>
        || (i == k - 1 && RequestConn in Calls(Base, run, k - 1))
        || (LastAsked(run, i, k - 1) && KeepsAsking(run, k - 1))
      ensures LastAsked(run, i, k) && GrantedSince(run, i, k) <==>
        LastAsked(run, i, k - 1) && KeepsAsking(run, k - 1) && (GrantedSince(run, i, k - 1) || run[k - 1].e.Granted?) {
      LastAskedStep(run, i, k);
    }
    assert RequestConn in Calls(Base, run, k - 1) ==> LastAsked(run, k - 1, k);
    if Asking(run, k - 1) {
      var i :| LastAsked(run, i, k - 1);
      assert KeepsAsking(run, k - 1) ==> LastAsked(run, i, k);
    }
    if Granting(run, k - 1) {
      var i :| LastAsked(run, i, k - 1) && GrantedSince(run, i, k - 1);
      assert KeepsAsking(run, k - 1) ==> LastAsked(run, i, k);
    }
  }

  lemma StepOpens(run: seq<Input>, k: nat)
    requires k < |run|
    ensures var (s, t) := (After(Base, run, k).state, After(Base, run, k + 1).state);
      && (t in {Pending, Acquired} <==>
            RequestConn in Calls(Base, run, k) || (s in {Pending, Acquired} && KeepsAsking(run, k)))
      && (t == Acquired <==>
            s in {Pending, Acquired} && KeepsAsking(run, k) && (s == Acquired || run[k].e.Granted?))
      && (s in {Pending, Acquired} ==> RequestConn !in Calls(Base, run, k))
  {
    var (m, e, env) := (After(Base, run, k), run[k].e, run[k].env);
    KindIsFixed(Base, run, k);
    StepIsFramed(m, e, env);
    GrantOpens(m, e, env);
    hide Step;
  }

  // Only a grant opens, and only what waits for it; and an open connection waits no more.
  lemma GrantOpens(m: Machine, e: Event, env: Env)
    requires m.kind == Base
    ensures var t := Step(m, e, env).m.state;
      && (t == Acquired <==>
            (e.Granted? && m.state == Pending) || (m.state == Acquired && t !in {Released, Releasing, Pending}))
      && (m.state == Acquired ==> t != Pending)
  {
    hide Kept, Notices, RetriesOver, Find, Without, AnyActive, Has;
  }

  // In every run, with modem restarts: the machine waits or is connected exactly if the last
  // framework call was a request and no close has been acted upon since.  So it never waits for a
  // connection that nobody has asked for; and it is connected exactly if that was granted, too.
  lemma {:induction false} OpenIffAsked(run: seq<Input>, k: nat)
    requires k <= |run|
    ensures After(Base, run, k).state in {Pending, Acquired} <==> Asking(run, k)
    ensures After(Base, run, k).state == Acquired <==> Granting(run, k)
  {
    hide Step, Asking, Granting, KeepsAsking, Calls;
    if k > 0 {
      OpenIffAsked(run, k - 1);
      AskingStep(run, k);
      StepOpens(run, k - 1);
      hide After;
    } else {
      NobodyAsked(run);
    }
  }

  lemma NobodyAsked(run: seq<Input>)
    ensures !Asking(run, 0) && !Granting(run, 0)
  {
  }

  // Between two requests there is a release call, or a close or denial that was acted upon.
  lemma RequestsAreBracketed(run: seq<Input>, i: nat, j: nat)
    requires i < j < |run|
    requires RequestConn in Calls(Base, run, i) && RequestConn in Calls(Base, run, j)
    ensures exists k :: i < k <= j && (ReleaseConn in Calls(Base, run, k) || LeftOnClose(Base, run, k))
  {
    hide Step;
    if forall k :: i < k < j ==> ReleaseConn !in Calls(Base, run, k) && !LeftOnClose(Base, run, k) {
      OpenUntilClosed(run, i, j);
      KindIsFixed(Base, run, j);
      StepIsFramed(After(Base, run, j), run[j].e, run[j].env);
    }
  }

  lemma ReleaseOnlyWhenOpen(run: seq<Input>, i: nat)
    requires i < |run| && ReleaseConn in Calls(Base, run, i)
    ensures After(Base, run, i).state in {Pending, Acquired}
  {
    hide Step;
    KindIsFixed(Base, run, i);
    StepIsFramed(After(Base, run, i), run[i].e, run[i].env);
  }

  /* ---------- subscribers are conserved ---------- */

  ghost function Added(m: Machine, e: Event, h: int): nat {
    if e.Subscribe? && e.handle == h && !Has(m.subs, h) then 1 else 0
  }

  // A modem restart drops everybody without a word.
  ghost function Dropped(m: Machine, e: Event, h: int): nat { if e.ModemRestart? then Listed(m, h) else 0 }

  // Whoever was listed or is newly added is still listed, or is told it is over, once, or dropped.
  ghost predicate Conserved(m: Machine, e: Event, eff: Effect, h: int) {
    Listed(eff.m, h) + Told(eff.out, h) + Dropped(m, e, h) == Listed(m, h) + Added(m, e, h)
  }

  lemma SubscribeConserves(m: Machine, g: int, wait: bool, env: Env, h: int)
    requires m.kind == Base
    ensures Conserved(m, Subscribe(g, wait), OnSubscribe(m, g, wait, env), h)
  {
    CountSnoc(m.subs, Subscriber(g, wait, false), h);
    ToldOne(RequestConn, h);
    ToldOne(OpenStatus(g, true), h);
  }

  lemma DepartConserves(m: Machine, i: nat, h: int)
    requires m.kind == Base && i < |m.subs| && Distinct(m.subs)
    ensures var d := Depart(m, i); Listed(d.m, h) + Told(d.out, h) == Listed(m, h)
  {
    var s := m.subs[i];
    ParkCount(m.subs, i, s.(inactive := true), |m.subs|, h);
    WithoutCount(m.subs, |m.subs|, s.handle, h);
    CountMember(m.subs, |m.subs|, h);
    ToldOne(CloseStatus(s.handle, true), h);
  }

  lemma WindIsSilent(m: Machine, env: Env, h: int)
    requires m.kind == Base
    ensures var w := Wind(m, env); w.m.subs == m.subs && Told(w.out, h) == 0
  {
    ToldOne(ReleaseConn, h);
  }

  lemma UnsubscribeConserves(m: Machine, g: int, env: Env, h: int)
    requires m.kind == Base && LooseShape(m)
    ensures Conserved(m, Unsubscribe(g), OnUnsubscribe(m, g, env), h)
  {
    var i := Find(m.subs, g);
    ToldOne(CloseStatus(g, false), h);
    if i < |m.subs| {
      var d := Depart(m, i);
      DepartConserves(m, i, h);
      WindIsSilent(d.m, env, h);
      ToldAppend(d.out, Wind(d.m, env).out, h);
    }
    hide Depart, Wind, Told, Listed, Find, LooseShape;
  }

  // Of a close while releasing.
  lemma ClosedConserves(m: Machine, env: Env, h: int)
    requires m.kind == Base
    ensures var eff := OnClosed(m, env); Listed(eff.m, h) + Told(eff.out, h) == Listed(m, h)
  {
    hide Kept, Notices, RetriesOver, AnyActive, Told, Count;
    RoundConserves(ConnReleased, m.subs, |m.subs|, ForInactive, h);
    ToldOne(RequestConn, h);
    ToldAppend(NotifyAll(m, ConnReleased, ForInactive, true).out, [RequestConn], h);
  }

  lemma CloseConserves(m: Machine, e: Event, env: Env, h: int)
    requires m.kind == Base && (e.ConnReleased? || e.Denied?)
    ensures Conserved(m, e, if e.Denied? then OnDenied(m, env) else OnReleased(m, env), h)
  {
    hide Kept, Notices, RetriesOver, OnClosed, Told, Count;
    ToldOne(RequestConn, h);
    ClosedConserves(m, env, h);
    RoundConserves(e, m.subs, |m.subs|, ForAll, h);
  }

  lemma StepConserves(m: Machine, e: Event, env: Env, h: int)
    requires m.kind == Base && LooseShape(m)
    ensures Conserved(m, e, Step(m, e, env), h)
  {
    ToldOne(RequestConn, h);
    match e {
      case Subscribe(g, wait) => SubscribeConserves(m, g, wait, env, h);
      case Unsubscribe(g) => UnsubscribeConserves(m, g, env, h);
      case Granted =>
        GrantsAreNotTerminal(m.subs, |m.subs|, ForActive, h);
        KeptAll(m.subs, |m.subs|, ForActive);
        assert m.subs[..|m.subs|] == m.subs;
      case ConnReleased => CloseConserves(m, e, env, h);
      case Denied => CloseConserves(m, e, env, h);
      case RetryTimer =>
      case ModemRestart =>
    }
    hide OnSubscribe, OnUnsubscribe, OnReleased, OnDenied, Told, Count, Kept, Notices;
  }

  // A subscriber leaves the list exactly when it is sent one terminal notification, and no
  // subscriber that stays is sent one.
  lemma LeavesExactlyWhenTold(m: Machine, e: Event, env: Env, h: int)
    requires m.kind == Base && LooseShape(m) && !e.ModemRestart?
    ensures var eff := Step(m, e, env);
      Told(eff.out, h) == if Has(m.subs, h) && !Has(eff.m.subs, h) then 1 else 0
  {
    var eff := Step(m, e, env);
    StepConserves(m, e, env, h);
    StepKeepsShape(m, e, env);
    HasByCount(m, h);
    HasByCount(eff.m, h);
    if e.Subscribe? && e.handle == h { AddHas(m, h, e.waitForClose, env); }
    hide Step, Told, Listed, Has, LooseShape, Shape;
  }

  lemma {:induction false} ToldMember(out: seq<Action>, k: nat, h: int)
    requires k <= |out|
    ensures Terminals(out, k, h) > 0 <==> exists j :: 0 <= j < k && Terminal(out[j], h)
  {
    if k > 0 { ToldMember(out, k - 1, h); }
  }

  lemma {:induction false} RoundNotice(e: Event, subs: seq<Subscriber>, k: nat, t: Target, h: int)
    requires k <= |subs|
    ensures !e.Denied? ==> OpenStatus(h, false) !in Notices(Base, e, subs, k, t)
    ensures e.Denied? ==> CloseStatus(h, true) !in Notices(Base, e, subs, k, t)
  {
    if k > 0 { RoundNotice(e, subs, k - 1, t, h); }
  }

  lemma UnsubscribeNotice(m: Machine, g: int, env: Env, h: int)
    requires m.kind == Base
    ensures OpenStatus(h, false) !in OnUnsubscribe(m, g, env).out
  {
    hide Find, Without, AnyActive;
  }

  // Which of the two notices an event can send.
  lemma StepNotice(m: Machine, e: Event, env: Env, h: int)
    requires m.kind == Base
    ensures var (out, refused) := (Step(m, e, env).out, e.Denied? && m.state == Pending);
      && (OpenStatus(h, false) in out ==> refused)
      && (CloseStatus(h, true) in out ==> !refused)
  {
    match e {
      case Unsubscribe(g) => UnsubscribeNotice(m, g, env, h);
      case Granted => RoundNotice(Granted, m.subs, |m.subs|, ForActive, h);
      case _ =>
        RoundNotice(ConnReleased, m.subs, |m.subs|, ForAll, h);
        RoundNotice(Denied, m.subs, |m.subs|, ForAll, h);
        RoundNotice(ConnReleased, m.subs, |m.subs|, ForInactive, h);
    }
    hide OnUnsubscribe, Notices, Kept, RetriesOver, AnyActive, Has;
  }

  // It is told that its connection was never opened exactly if it leaves on a denial of the pending
  // one, and that it is closed exactly if it leaves otherwise.
  lemma LeavesWithNotice(m: Machine, e: Event, env: Env, h: int)
    requires m.kind == Base && LooseShape(m) && !e.ModemRestart?
    ensures var eff := Step(m, e, env);
      var (left, refused) := (Has(m.subs, h) && !Has(eff.m.subs, h), e.Denied? && m.state == Pending);
      && (OpenStatus(h, false) in eff.out <==> left && refused)
      && (CloseStatus(h, true) in eff.out <==> left && !refused)
  {
    var out := Step(m, e, env).out;
    LeavesExactlyWhenTold(m, e, env, h);
    ToldMember(out, |out|, h);
    StepNotice(m, e, env, h);
    assert forall a :: a in out && Terminal(a, h) ==> Told(out, h) > 0;
    hide Step, LooseShape, Has, Terminals;
  }

  lemma AddHas(m: Machine, h: int, wait: bool, env: Env)
    requires m.kind == Base
    ensures Has(OnSubscribe(m, h, wait, env).m.subs, h)
  {
  }

  // Over a whole run: how often a handle was added, and how often it was told it is over.
  ghost function TimesAdded(run: seq<Input>, k: nat, h: int): nat
    requires k <= |run|
  {
    if k == 0 then 0 else
      TimesAdded(run, k - 1, h) + Added(After(Base, run, k - 1), run[k - 1].e, h)
  }

  ghost function TimesTold(run: seq<Input>, k: nat, h: int): nat
    requires k <= |run|
  {
    if k == 0 then 0 else TimesTold(run, k - 1, h) + Told(Calls(Base, run, k - 1), h)
  }

  ghost function TimesDropped(run: seq<Input>, k: nat, h: int): nat
    requires k <= |run|
  {
    if k == 0 then 0 else
      TimesDropped(run, k - 1, h) + Dropped(After(Base, run, k - 1), run[k - 1].e, h)
  }

  // Everybody ever added is still listed, or has been told exactly once, or was dropped by a restart.
  lemma SubscribersAreConserved(run: seq<Input>, k: nat, h: int)
    requires k <= |run|
    ensures TimesAdded(run, k, h) == TimesTold(run, k, h) + TimesDropped(run, k, h) +
                                     if Has(After(Base, run, k).subs, h) then 1 else 0
  {
    ReachableShape(run, k);
    HasByCount(After(Base, run, k), h);
    AddedIsToldOrListed(run, k, h);
    hide Has, After, Listed, TimesAdded, TimesTold, TimesDropped, LooseShape;
  }

  lemma NobodyListedAtFirst(h: int)
    ensures Listed(Init(Base), h) == 0
  {
  }

  lemma {:induction false} AddedIsToldOrListed(run: seq<Input>, k: nat, h: int)
    requires k <= |run|
    ensures TimesAdded(run, k, h) ==
            TimesTold(run, k, h) + TimesDropped(run, k, h) + Listed(After(Base, run, k), h)
  {
    hide Step, Shape, LooseShape, Told, Added, Dropped, Listed;
    if k == 0 {
      NobodyListedAtFirst(h);
    } else {
      AddedIsToldOrListed(run, k - 1, h);
      ReachableShape(run, k - 1);
      StepConserves(After(Base, run, k - 1), run[k - 1].e, run[k - 1].env, h);
    }
  }

  // A close while releasing keeps every active subscriber, in order, and asks again for them;
  // a close that arrives late, when a new request is already out, changes nothing.
  lemma ActivesSurviveClose(m: Machine, e: Event, env: Env)
    requires m.kind == Base && (e.ConnReleased? || e.Denied?)
    ensures m.state == Releasing ==> var eff := Step(m, e, env);
      && eff.m.subs == Kept(m.subs, |m.subs|, ForInactive, true)
      && (forall s :: s in eff.m.subs <==> s in m.subs && !s.inactive)
      && (RequestConn in eff.out <==> AnyActive(m.subs))
      && eff.m.state == if AnyActive(m.subs) then Pending else Released
    ensures m.state == Pending && e.ConnReleased? ==> Step(m, e, env) == Effect(m, [])
  {
    forall s ensures s in Kept(m.subs, |m.subs|, ForInactive, true) <==> s in m.subs && !s.inactive {
      KeptMember(m.subs, |m.subs|, ForInactive, true, s);
    }
    NoFrameworkNotices(ConnReleased, m.subs, |m.subs|, ForInactive);
  }

  /* ---------- who has been told of the grant ---------- */

  ghost function Granteds(out: seq<Action>): set<int> {
    set a | a in out && a.OpenStatus? && a.granted :: a.handle
  }

  // The listed handles that were sent a grant since they were added.
  ghost function Served(kind: Kind, run: seq<Input>, k: nat): set<int>
    requires k <= |run|
  {
    if k == 0 then {} else
      var m := After(kind, run, k);
      set s | s in m.subs && s.handle in Served(kind, run, k - 1) + Granteds(Calls(kind, run, k - 1)) :: s.handle
  }

  ghost predicate AllActiveIn(m: Machine, told: set<int>) {
    forall s :: s in m.subs && !s.inactive ==> s.handle in told
  }

  lemma {:induction false} GrantReachesActives(kind: Kind, subs: seq<Subscriber>, k: nat, s: Subscriber)
    requires k <= |subs| && !s.inactive && exists j :: 0 <= j < k && subs[j] == s
    ensures OpenStatus(s.handle, true) in Notices(kind, Granted, subs, k, ForActive)
  {
    if subs[k - 1] != s { GrantReachesActives(kind, subs, k - 1, s); }
  }

  // Entering or staying connected: every active subscriber was told before, or is told now.
  ghost predicate Informs(m: Machine, told: set<int>, eff: Effect) {
    (m.state == Acquired ==> AllActiveIn(m, told)) && eff.m.state == Acquired ==>
      AllActiveIn(eff.m, told + Granteds(eff.out))
  }

  lemma SubscribeInforms(m: Machine, h: int, wait: bool, env: Env, told: set<int>)
    ensures Informs(m, told, OnSubscribe(m, h, wait, env))
  {
  }

  lemma ConnKeepsList(m: Machine, request: bool, env: Env)
    ensures var m' := Conn(m, request, env).0.m; m'.subs == m.subs && m'.state == m.state
  {
  }

  lemma UnsubscribeInforms(m: Machine, h: int, env: Env, told: set<int>)
    ensures Informs(m, told, OnUnsubscribe(m, h, env))
  {
    var i := Find(m.subs, h);
    if i < |m.subs| {
      var d := Depart(m, i).m;
      forall s | s in d.subs && !s.inactive ensures s in m.subs {
        WithoutMember(m.subs, |m.subs|, m.subs[i].handle, s);
      }
      ConnKeepsList(d.(state := Released), false, env);
      ConnKeepsList(d.(state := Releasing), false, env);
    }
    hide Conn, Find, Depart, AnyActive;
  }

  lemma GrantInforms(m: Machine, told: set<int>)
    ensures Informs(m, told, OnGranted(m))
  {
    var eff := OnGranted(m);
    if m.state == Pending {
      forall s | s in eff.m.subs && !s.inactive ensures s.handle in Granteds(eff.out) {
        KeptMember(m.subs, |m.subs|, ForActive, false, s);
        GrantReachesActives(m.kind, m.subs, |m.subs|, s);
        assert OpenStatus(s.handle, true) in eff.out;
      }
      hide Kept, Notices;
    }
  }

  lemma CloseInforms(m: Machine, env: Env, told: set<int>)
    ensures Informs(m, told, OnReleased(m, env)) && Informs(m, told, OnDenied(m, env))
  {
  }

  lemma StepInforms(m: Machine, e: Event, env: Env, told: set<int>)
    ensures Informs(m, told, Step(m, e, env))
  {
    match e {
      case Subscribe(h, wait) => SubscribeInforms(m, h, wait, env, told);
      case Unsubscribe(h) => UnsubscribeInforms(m, h, env, told);
      case Granted => GrantInforms(m, told);
      case ConnReleased => CloseInforms(m, env, told);
      case Denied => CloseInforms(m, env, told);
      case _ =>
    }
    hide OnSubscribe, OnUnsubscribe, OnGranted, OnReleased, OnDenied;
  }

  // While connected, every active subscriber has been sent a grant since it was added, whether it
  // joined before the grant or after.  Holds for both kinds of machine, with modem restarts.
  lemma {:induction false} ConnectedMeansGranted(kind: Kind, run: seq<Input>, k: nat)
    requires k <= |run| && After(kind, run, k).state == Acquired
    ensures AllActiveIn(After(kind, run, k), Served(kind, run, k))
  {
    hide Step;
    if k > 0 {
      if After(kind, run, k - 1).state == Acquired { ConnectedMeansGranted(kind, run, k - 1); }
      StepInforms(After(kind, run, k - 1), run[k - 1].e, run[k - 1].env, Served(kind, run, k - 1));
      assert Calls(kind, run, k - 1) == Step(After(kind, run, k - 1), run[k - 1].e, run[k - 1].env).out;
    }
  }

  // Whoever is active in `subs` was listed and active in `m`, or was not listed in `m` at all.
  ghost predicate NoRevival(m: Machine, subs: seq<Subscriber>) {
    forall t :: t in subs && !t.inactive ==> t in m.subs || !Has(m.subs, t.handle)
  }

  lemma UnsubscribeRevivesNone(m: Machine, h: int, env: Env)
    ensures NoRevival(m, OnUnsubscribe(m, h, env).m.subs)
  {
    var i := Find(m.subs, h);
    if i < |m.subs| {
      var d := Depart(m, i).m;
      forall t | t in d.subs && !t.inactive ensures t in m.subs {
        WithoutMember(m.subs, |m.subs|, m.subs[i].handle, t);
      }
      ConnKeepsList(d.(state := Released), false, env);
      ConnKeepsList(d.(state := Releasing), false, env);
    }
    hide Conn, Find, Depart, AnyActive, Has;
  }

  lemma RoundRevivesNone(m: Machine, e: Event, t: Target, delete: bool)
    ensures NoRevival(m, NotifyAll(m, e, t, delete).m.subs)
  {
    forall s | s in Kept(m.subs, |m.subs|, t, delete) ensures s in m.subs {
      KeptMember(m.subs, |m.subs|, t, delete, s);
    }
    hide Kept, Has;
  }

  lemma CloseRevivesNone(m: Machine, env: Env)
    ensures NoRevival(m, OnClosed(m, env).m.subs)
  {
    RoundRevivesNone(m, ConnReleased, ForInactive, true);
    ConnKeepsList(NotifyAll(m, ConnReleased, ForInactive, true).m.(state := Pending), true, env);
    hide Conn, Kept, Notices, RetriesOver, AnyActive, NoRevival;
  }

  lemma StepRevivesNone(m: Machine, e: Event, env: Env)
    ensures NoRevival(m, Step(m, e, env).m.subs)
  {
    match e {
      case Subscribe(h, wait) =>
        ConnKeepsList(m.(subs := Add(m.subs, Subscriber(h, wait, false))), true, env);
      case Unsubscribe(h) => UnsubscribeRevivesNone(m, h, env);
      case _ =>
        RoundRevivesNone(m.(state := Acquired), Granted, ForActive, false);
        RoundRevivesNone(m.(state := Released), ConnReleased, ForAll, true);
        RoundRevivesNone(m.(state := Released), Denied, ForAll, true);
        CloseRevivesNone(m, env);
    }
    hide Conn, OnUnsubscribe, OnClosed, NotifyAll;
  }

  // Once inactive, a subscriber stays inactive for as long as it is listed.
  lemma InactiveForGood(m: Machine, e: Event, env: Env, s: Subscriber, t: Subscriber)
    requires Distinct(m.subs) && s in m.subs && s.inactive
    requires t in Step(m, e, env).m.subs && t.handle == s.handle
    ensures t.inactive
  {
    StepRevivesNone(m, e, env);
    hide Step;
  }

  /* ---------- handles are distinct, on both kinds of machine ---------- */

  lemma AddKeepsDistinct(subs: seq<Subscriber>, s: Subscriber)
    requires Distinct(subs)
    ensures Distinct(Add(subs, s))
  {
  }

  lemma UnsubscribeKeepsDistinct(m: Machine, h: int, env: Env)
    requires Distinct(m.subs)
    ensures Distinct(OnUnsubscribe(m, h, env).m.subs)
  {
    var i := Find(m.subs, h);
    if i < |m.subs| {
      var d := Depart(m, i).m;
      WithoutDistinct(m.subs, |m.subs|, m.subs[i].handle);
      ConnKeepsList(d.(state := Released), false, env);
      ConnKeepsList(d.(state := Releasing), false, env);
      assert Distinct(d.subs);
    }
    hide Conn, Find, Depart, AnyActive, Distinct;
  }

  lemma ClosedKeepsDistinct(m: Machine, env: Env)
    requires Distinct(m.subs)
    ensures Distinct(OnClosed(m, env).m.subs)
  {
    KeptDistinct(m.subs, |m.subs|, ForInactive, true);
    ConnKeepsList(NotifyAll(m, ConnReleased, ForInactive, true).m.(state := Pending), true, env);
    hide Conn, Kept, Notices, RetriesOver, AnyActive, Distinct;
  }

  lemma StepKeepsDistinct(m: Machine, e: Event, env: Env)
    requires Distinct(m.subs)
    ensures Distinct(Step(m, e, env).m.subs)
  {
    match e {
      case Subscribe(h, wait) =>
        AddKeepsDistinct(m.subs, Subscriber(h, wait, false));
        ConnKeepsList(m.(subs := Add(m.subs, Subscriber(h, wait, false))), true, env);
      case Unsubscribe(h) => UnsubscribeKeepsDistinct(m, h, env);
      case _ =>
        KeptDistinct(m.subs, |m.subs|, ForActive, false);
        KeptDistinct(m.subs, |m.subs|, ForAll, true);
        ClosedKeepsDistinct(m, env);
    }
    hide Conn, OnUnsubscribe, OnClosed, Kept, Notices, RetriesOver, Distinct, Add;
  }

  // In every run of either machine, with modem restarts, no handle is listed twice.
  lemma {:induction false} HandlesAreDistinct(kind: Kind, run: seq<Input>, k: nat)
    requires k <= |run|
    ensures Distinct(After(kind, run, k).subs)
  {
    hide Step;
    if k > 0 {
      HandlesAreDistinct(kind, run, k - 1);
      StepKeepsDistinct(After(kind, run, k - 1), run[k - 1].e, run[k - 1].env);
    }
  }

  // So once inactive, a subscriber stays inactive for as long as it is listed, in every run.
  lemma InactiveStaysInactive(kind: Kind, run: seq<Input>, k: nat, s: Subscriber, t: Subscriber)
    requires k < |run| && s in After(kind, run, k).subs && s.inactive
    requires t in After(kind, run, k + 1).subs && t.handle == s.handle
    ensures t.inactive
  {
    hide Step;
    HandlesAreDistinct(kind, run, k);
    InactiveForGood(After(kind, run, k), run[k].e, run[k].env, s, t);
  }
}
