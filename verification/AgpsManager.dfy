/**
 AgpsManager of gps/gnss/Agps.cpp: which of the three state machines a request, a release or a report
 goes to.  Each machine's part in a run of the manager is a run of that machine alone, so that all
 that `AgpsRuns` and `DsRuns` prove of machines holds behind the manager.
 */
module AgpsManager {
  import opened Agps
  import AgpsRuns
  import opened Wrappers

  // The type of a request.  An invalid type is treated as plain SUPL.
  datatype Type = Supl | SuplEs | WwanAny

  datatype Nif = Agnss | Internet | Emergency

  // The device can do assisted positioning, and uses an emergency connection of its own.
  datatype Config = Config(agpsCapable: bool, emergencyPdn: bool)

  datatype Post = Post(handle: int, kind: Type)

  // `posts` are the requests that machines have sent to the adapter's queue.
  datatype State = State(agnss: Option<Machine>, internet: Machine, emergency: Option<Machine>, posts: seq<Post>)
  {
    function Of(nif: Nif): Option<Machine> {
      match nif
      case Agnss => agnss
      case Internet => Some(internet)
      case Emergency => emergency
    }

    function With(nif: Nif, m: Machine): State {
      match nif
      case Agnss => this.(agnss := Some(m))
      case Internet => this.(internet := m)
      case Emergency => this.(emergency := Some(m))
    }
  }

  // `created` is whether the emergency machine can be created, should the message try to.
  datatype Message =
    | Request(handle: int, kind: Type, created: bool, env: Env)
    | Posted(created: bool, env: Env)
    | Release(handle: int, env: Env)
    | Report(kind: Type, e: Event, created: bool, env: Env)
    | DataCall(e: Event, env: Env)
    | Retry(env: Env)
    | Restart(env: Env)

  function KindOf(nif: Nif): Kind { if nif.Emergency? then Ds else Base }

  function Start(c: Config, created: bool): State {
    State(if c.agpsCapable then Some(Init(Base)) else None, Init(Base),
          if c.agpsCapable && c.emergencyPdn && created then Some(Init(Ds)) else None, [])
  }

  // getAgpsStateMachine, which may create the emergency machine.
  function Ensure(c: Config, s: State, kind: Type, created: bool): State {
    if kind.SuplEs? && c.emergencyPdn && s.emergency.None? && c.agpsCapable && created
    then s.(emergency := Some(Init(Ds))) else s
  }

  function Route(c: Config, kind: Type): Nif {
    match kind
    case Supl => Agnss
    case SuplEs => if c.emergencyPdn then Emergency else Agnss
    case WwanAny => Internet
  }

  // The requests among the first k calls.
  function Posts(out: seq<Action>, k: nat): seq<Post>
    requires k <= |out|
  {
    if k == 0 then []
    else
      Posts(out, k - 1) +
      match out[k - 1]
      case PostSupl(h) => [Post(h, Supl)]
      case PostSuplEs(h) => [Post(h, SuplEs)]
      case _ => []
  }

  function Feed(s: State, nif: Nif, e: Event, env: Env): (State, seq<Action>) {
    if s.Of(nif).None? then (s, [])
    else
      var eff := Step(s.Of(nif).value, e, env);
      (s.With(nif, eff.m).(posts := s.posts + Posts(eff.out, |eff.out|)), eff.out)
  }

  function OnRequest(c: Config, s: State, h: int, kind: Type, created: bool, env: Env): (State, seq<Action>) {
    var t := Ensure(c, s, kind, created);
    if t.Of(Route(c, kind)).None? then (t, [OpenStatus(h, false)])
    else Feed(t, Route(c, kind), Subscribe(h, kind.SuplEs?), env)
  }

  predicate Lists(s: State, nif: Nif, h: int) { s.Of(nif).Some? && Has(s.Of(nif).value.subs, h) }

  // The first machine that lists the handle, in the order of the source.
  function Owner(s: State, h: int): Option<Nif> {
    if Lists(s, Agnss, h) then Some(Agnss)
    else if Lists(s, Internet, h) then Some(Internet)
    else if Lists(s, Emergency, h) then Some(Emergency)
    else None
  }

  function OnRelease(s: State, h: int, env: Env): (State, seq<Action>) {
    var owner := Owner(s, h);
    if owner.None? then (s, [CloseStatus(h, false)]) else Feed(s, owner.value, Unsubscribe(h), env)
  }

  // Reports from the framework name a machine that exists: the source does not check.
  predicate Enabled(c: Config, s: State, msg: Message) {
    match msg
    case Posted(_, _) => s.posts != []
    case Report(kind, e, created, _) =>
      (e.Granted? || e.Denied? || e.ConnReleased?) && Ensure(c, s, kind, created).Of(Route(c, kind)).Some?
    case DataCall(e, _) => e.Granted? || e.ConnReleased?
    case _ => true
  }

  function Handle(c: Config, s: State, msg: Message): (State, seq<Action>)
    requires Enabled(c, s, msg)
  {
    match msg
    case Request(h, kind, created, env) => OnRequest(c, s, h, kind, created, env)
    case Posted(created, env) =>
      OnRequest(c, s.(posts := s.posts[1..]), s.posts[0].handle, s.posts[0].kind, created, env)
    case Release(h, env) => OnRelease(s, h, env)
    case Report(kind, e, created, env) => Feed(Ensure(c, s, kind, created), Route(c, kind), e, env)
    case DataCall(e, env) => Feed(s, Emergency, e, env)
    case Retry(env) => Feed(s, Emergency, RetryTimer, env)
    case Restart(env) =>
      var (a, _) := Feed(s, Agnss, ModemRestart, env);
      var (b, _) := Feed(a, Internet, ModemRestart, env);
      var (d, _) := Feed(b, Emergency, ModemRestart, env);
      (d, if c.emergencyPdn then [StopDataCall, CloseDataCall] else [])
  }

  // The state after the first k messages, if each of them could arrive.
  ghost function After(c: Config, init: State, run: seq<Message>, k: nat): Option<State>
    requires k <= |run|
  {
    if k == 0 then Some(init)
    else
      var s := After(c, init, run, k - 1);
      if s.Some? && Enabled(c, s.value, run[k - 1]) then Some(Handle(c, s.value, run[k - 1]).0) else None
  }

  /* ---------- each machine has a run of its own ---------- */

  // What a message feeds to a machine, if anything.
  ghost function Fed(c: Config, s: State, msg: Message, nif: Nif): seq<AgpsRuns.Input>
    requires Enabled(c, s, msg)
  {
    match msg
    case Request(h, kind, created, env) =>
      if Route(c, kind) == nif && Ensure(c, s, kind, created).Of(nif).Some?
      then [AgpsRuns.Input(Subscribe(h, kind.SuplEs?), env)] else []
    case Posted(created, env) =>
      var (h, kind) := (s.posts[0].handle, s.posts[0].kind);
      if Route(c, kind) == nif && Ensure(c, s, kind, created).Of(nif).Some?
      then [AgpsRuns.Input(Subscribe(h, kind.SuplEs?), env)] else []
    case Release(h, env) => if Owner(s, h) == Some(nif) then [AgpsRuns.Input(Unsubscribe(h), env)] else []
    case Report(kind, e, _, env) => if Route(c, kind) == nif then [AgpsRuns.Input(e, env)] else []
    case DataCall(e, env) => if nif.Emergency? && s.emergency.Some? then [AgpsRuns.Input(e, env)] else []
    case Retry(env) => if nif.Emergency? && s.emergency.Some? then [AgpsRuns.Input(RetryTimer, env)] else []
    case Restart(env) => if s.Of(nif).Some? then [AgpsRuns.Input(ModemRestart, env)] else []
  }

  // The machine before the message: a machine that the message creates starts afresh.
  ghost function Before(s: State, nif: Nif): Machine {
    if s.Of(nif).Some? then s.Of(nif).value else Init(KindOf(nif))
  }

  lemma HandleFeeds(c: Config, s: State, msg: Message, nif: Nif)
    requires Enabled(c, s, msg)
    ensures var (t, fed) := (Handle(c, s, msg).0, Fed(c, s, msg, nif));
      && |fed| <= 1 && (t.Of(nif).None? ==> s.Of(nif).None? && fed == [])
      && (t.Of(nif).Some? ==>
            t.Of(nif).value == if fed == [] then Before(s, nif) else Step(Before(s, nif), fed[0].e, fed[0].env).m)
  {
    hide Step, Has;
  }

  ghost function Inputs(c: Config, init: State, run: seq<Message>, k: nat, nif: Nif): seq<AgpsRuns.Input>
    requires k <= |run| && After(c, init, run, k).Some?
  {
    if k == 0 then []
    else Inputs(c, init, run, k - 1, nif) + Fed(c, After(c, init, run, k - 1).value, run[k - 1], nif)
  }

  lemma {:induction false} SamePrefix(kind: Kind, a: seq<AgpsRuns.Input>, b: seq<AgpsRuns.Input>, k: nat)
    requires k <= |a| && k <= |b| && forall j :: 0 <= j < k ==> a[j] == b[j]
    ensures AgpsRuns.After(kind, a, k) == AgpsRuns.After(kind, b, k)
  {
    hide Step;
    if k > 0 {
      SamePrefix(kind, a, b, k - 1);
    }
  }

  lemma AfterMore(kind: Kind, a: seq<AgpsRuns.Input>, x: AgpsRuns.Input)
    ensures AgpsRuns.After(kind, a + [x], |a| + 1) == Step(AgpsRuns.After(kind, a, |a|), x.e, x.env).m
  {
    hide Step;
    SamePrefix(kind, a, a + [x], |a|);
  }

  // In every run of the manager, each machine is where its own inputs have brought it.
  lemma {:induction false} MachinesRunAlone(c: Config, created: bool, run: seq<Message>, k: nat, nif: Nif)
    requires k <= |run| && After(c, Start(c, created), run, k).Some?
    ensures var inputs := Inputs(c, Start(c, created), run, k, nif);
      var m := After(c, Start(c, created), run, k).value.Of(nif);
      if m.None? then inputs == [] else m.value == AgpsRuns.After(KindOf(nif), inputs, |inputs|)
  {
    hide Handle, Enabled, Fed, Step;
    if k > 0 {
      MachinesRunAlone(c, created, run, k - 1, nif);
      var s := After(c, Start(c, created), run, k - 1).value;
      var (before, fed) := (Inputs(c, Start(c, created), run, k - 1, nif), Fed(c, s, run[k - 1], nif));
      HandleFeeds(c, s, run[k - 1], nif);
      if fed == [] {
        assert before + fed == before;
      } else {
        assert fed == [fed[0]];
        AfterMore(KindOf(nif), before, fed[0]);
      }
    }
  }

  ghost predicate NoRestart(run: seq<Message>, k: nat)
    requires k <= |run|
  {
    forall j :: 0 <= j < k ==> !run[j].Restart?
  }

  lemma {:induction false} NoRestartIsFed(c: Config, init: State, run: seq<Message>, k: nat, nif: Nif)
    requires k <= |run| && After(c, init, run, k).Some? && NoRestart(run, k)
    ensures AgpsRuns.NoRestart(Inputs(c, init, run, k, nif))
  {
    hide Handle;
    if k > 0 {
      NoRestartIsFed(c, init, run, k - 1, nif);
    }
  }

  // So behind the manager too, in every run, the base machines keep the shape of their lists.
  lemma BaseMachinesKeepShape(c: Config, created: bool, run: seq<Message>, k: nat, nif: Nif)
    requires k <= |run| && After(c, Start(c, created), run, k).Some? && !nif.Emergency?
    requires After(c, Start(c, created), run, k).value.Of(nif).Some?
    ensures var m := After(c, Start(c, created), run, k).value.Of(nif).value;
      AgpsRuns.LooseShape(m) && (NoRestart(run, k) ==> AgpsRuns.Shape(m))
  {
    var inputs := Inputs(c, Start(c, created), run, k, nif);
    MachinesRunAlone(c, created, run, k, nif);
    AgpsRuns.ReachableShape(inputs, |inputs|);
    if NoRestart(run, k) {
      NoRestartIsFed(c, Start(c, created), run, k, nif);
    }
    hide AgpsRuns.Shape, AgpsRuns.LooseShape, AgpsRuns.NoRestart, Inputs, After;
  }

  /* ---------- where requests go ---------- */

  // A request of each type goes to its own machine, and to no other: an emergency shares the plain
  // one unless it has a connection of its own, whose machine may have to be created first.
  lemma RequestIsRouted(c: Config, s: State, h: int, kind: Type, created: bool, env: Env)
    ensures var (t, out) := Handle(c, s, Request(h, kind, created, env));
      match kind
      case WwanAny =>
        && t.internet == Step(s.internet, Subscribe(h, false), env).m
        && t.agnss == s.agnss && t.emergency == s.emergency
      case Supl =>
        && t.internet == s.internet && t.emergency == s.emergency && (t.agnss.None? <==> s.agnss.None?)
        && (if s.agnss.None? then out == [OpenStatus(h, false)]
            else t.agnss.value == Step(s.agnss.value, Subscribe(h, false), env).m)
      case SuplEs =>
        if !c.emergencyPdn then
          && t.internet == s.internet && t.emergency == s.emergency && (t.agnss.None? <==> s.agnss.None?)
          && (if s.agnss.None? then out == [OpenStatus(h, false)]
              else t.agnss.value == Step(s.agnss.value, Subscribe(h, true), env).m)
        else
          && t.internet == s.internet && t.agnss == s.agnss
          && (t.emergency.None? <==> s.emergency.None? && !(c.agpsCapable && created))
          && (if t.emergency.None? then out == [OpenStatus(h, false)]
              else t.emergency.value == Step(Before(s, Emergency), Subscribe(h, true), env).m)
  {
    hide Step;
  }

  // A message that needs the emergency machine, and could create it.
  ghost predicate Creates(c: Config, s: State, msg: Message)
    requires Enabled(c, s, msg)
  {
    match msg
    case Request(_, kind, created, _) => kind.SuplEs? && created
    case Posted(created, _) => s.posts[0].kind.SuplEs? && created
    case Report(kind, _, created, _) => kind.SuplEs? && created
    case _ => false
  }

  lemma HandleCreates(c: Config, s: State, msg: Message)
    requires Enabled(c, s, msg)
    ensures var t := Handle(c, s, msg).0;
      && (t.agnss.Some? <==> s.agnss.Some?)
      && (t.emergency.Some? <==> s.emergency.Some? || (c.agpsCapable && c.emergencyPdn && Creates(c, s, msg)))
  {
    hide Step, Has;
  }

  ghost predicate HasCreated(c: Config, init: State, run: seq<Message>, k: nat)
    requires k <= |run| && After(c, init, run, k).Some?
  {
    k > 0 && (HasCreated(c, init, run, k - 1) || Creates(c, After(c, init, run, k - 1).value, run[k - 1]))
  }

  // In every run: without assisted positioning there is the internet machine alone; and with it, there
  // is an emergency machine exactly if such connections are their own, and it could be created at the
  // start or when a message needed it.
  lemma {:induction false} MachinesExistIff(c: Config, created: bool, run: seq<Message>, k: nat)
    requires k <= |run| && After(c, Start(c, created), run, k).Some?
    ensures var s := After(c, Start(c, created), run, k).value;
      && (s.agnss.Some? <==> c.agpsCapable)
      && (s.emergency.Some? <==>
            c.agpsCapable && c.emergencyPdn && (created || HasCreated(c, Start(c, created), run, k)))
  {
    hide Handle, Creates, Enabled;
    if k > 0 {
      MachinesExistIff(c, created, run, k - 1);
      HandleCreates(c, After(c, Start(c, created), run, k - 1).value, run[k - 1]);
    }
  }

  // The calls that post a request are posted in their order, and nothing else is.
  lemma {:induction false} PostsAppend(a: seq<Action>, b: seq<Action>, k: nat)
    requires k <= |a| + |b|
    ensures Posts(a + b, k) == if k <= |a| then Posts(a, k) else Posts(a, |a|) + Posts(b, k - |a|)
  {
    if k > 0 {
      PostsAppend(a, b, k - 1);
    }
  }

  lemma PostsOne(a: Action)
    ensures Posts([a], 1) ==
      if a.PostSupl? then [Post(a.handle, Supl)] else if a.PostSuplEs? then [Post(a.handle, SuplEs)] else []
  {
    assert Posts([a], 0) == [];
  }

  // All that the first k messages have posted, and how many posts have come back.
  ghost function AllPosts(c: Config, init: State, run: seq<Message>, k: nat): seq<Post>
    requires k <= |run| && After(c, init, run, k).Some?
  {
    if k == 0 then []
    else
      var out := Handle(c, After(c, init, run, k - 1).value, run[k - 1]).1;
      AllPosts(c, init, run, k - 1) + Posts(out, |out|)
  }

  ghost function Returned(run: seq<Message>, k: nat): nat
    requires k <= |run|
  {
    if k == 0 then 0 else Returned(run, k - 1) + if run[k - 1].Posted? then 1 else 0
  }

  lemma RestartPosts(c: Config, s: State, env: Env)
    ensures var (t, out) := Handle(c, s, Restart(env)); t.posts == s.posts && Posts(out, |out|) == []
  {
    PostsAppend([StopDataCall], [CloseDataCall], 2);
    PostsOne(StopDataCall);
    PostsOne(CloseDataCall);
    assert [StopDataCall] + [CloseDataCall] == [StopDataCall, CloseDataCall];
    assert s.posts + [] == s.posts;
  }

  lemma HandlePosts(c: Config, s: State, msg: Message)
    requires Enabled(c, s, msg)
    ensures var (t, out) := Handle(c, s, msg);
      t.posts == (if msg.Posted? then s.posts[1..] else s.posts) + Posts(out, |out|)
  {
    if msg.Restart? {
      RestartPosts(c, s, msg.env);
    } else {
      forall h: int
        ensures Posts([OpenStatus(h, false)], 1) == [] && Posts([CloseStatus(h, false)], 1) == [] {
        PostsOne(OpenStatus(h, false));
        PostsOne(CloseStatus(h, false));
      }
      assert forall p: seq<Post> :: p + [] == p;
    }
    hide Step, Has;
  }

  // In every run, posted requests come back one by one, in the order in which they were posted.
  lemma {:induction false} QueueIsFifo(c: Config, created: bool, run: seq<Message>, k: nat)
    requires k <= |run| && After(c, Start(c, created), run, k).Some?
    ensures var all := AllPosts(c, Start(c, created), run, k);
      Returned(run, k) <= |all| && After(c, Start(c, created), run, k).value.posts == all[Returned(run, k)..]
  {
    hide Handle;
    if k > 0 {
      QueueIsFifo(c, created, run, k - 1);
      HandlePosts(c, After(c, Start(c, created), run, k - 1).value, run[k - 1]);
    }
  }

  // So a retry comes back to the emergency machine as a subscription of the handle that the timer
  // found, once the posts before it have come back: n is its place among all posts.
  lemma RetryComesBack(c: Config, created: bool, run: seq<Message>, l: nat, n: nat, h: int)
    requires l < |run| && After(c, Start(c, created), run, l + 1).Some? && c.emergencyPdn
    requires var all := AllPosts(c, Start(c, created), run, l); n < |all| && all[n] == Post(h, SuplEs)
    requires run[l].Posted? && Returned(run, l) == n && After(c, Start(c, created), run, l).value.emergency.Some?
    ensures var (s, t) := (After(c, Start(c, created), run, l).value, After(c, Start(c, created), run, l + 1).value);
      && t.emergency == Some(Step(s.emergency.value, Subscribe(h, true), run[l].env).m)
      && t.agnss == s.agnss && t.internet == s.internet
  {
    QueueIsFifo(c, created, run, l);
    hide Step, AllPosts;
  }

  // A retry timer that fires posts a request exactly if somebody is active, for the first who is.
  lemma RetryPosts(c: Config, s: State, env: Env, h: int)
    requires s.emergency.Some? && s.emergency.value.kind == Ds
    ensures var out := Handle(c, s, Retry(env)).1;
      Posts(out, |out|) == [Post(h, SuplEs)] <==>
      var subs := s.emergency.value.subs;
      exists i :: 0 <= i < |subs| && subs[i].handle == h && !subs[i].inactive &&
        forall j :: 0 <= j < i ==> subs[j].inactive
  {
    var subs := s.emergency.value.subs;
    var i := FirstActive(subs);
    if i < |subs| {
      PostsOne(PostSuplEs(subs[i].handle));
    }
    hide FirstActive;
  }

  /* ---------- release and restart ---------- */

  // A release is refused exactly when no machine lists the handle; otherwise one machine handles
  // it, and no other changes.
  lemma ReleaseReachesOne(s: State, h: int, env: Env)
    ensures var (t, out) := OnRelease(s, h, env);
      && (Owner(s, h).None? <==> forall nif :: !Lists(s, nif, h))
      && (Owner(s, h).None? ==> out == [CloseStatus(h, false)] && t == s)
      && (forall nif :: Some(nif) != Owner(s, h) ==> t.Of(nif) == s.Of(nif))
      && (Owner(s, h).Some? ==> Lists(s, Owner(s, h).value, h))
  {
    hide Step, Has;
    assert Owner(s, h).None? ==> !Lists(s, Agnss, h) && !Lists(s, Internet, h) && !Lists(s, Emergency, h);
  }

  // After a modem restart no machine lists anybody, and each is in the state it was in; nobody is told,
  // and the data call is stopped and closed exactly where emergency connections are their own.
  lemma RestartDropsAll(c: Config, s: State, env: Env, nif: Nif, h: int)
    ensures var out := Handle(c, s, Restart(env)).1;
      if c.emergencyPdn then out == [StopDataCall, CloseDataCall] else out == []
    ensures var t := Handle(c, s, Restart(env)).0;
      && !Lists(t, nif, h) && (t.Of(nif).Some? <==> s.Of(nif).Some?)
      && (s.Of(nif).Some? ==> t.Of(nif).value.state == s.Of(nif).value.state)
  {
  }

  /* ---------- a fallback leaves its subscriber behind ---------- */

  // A first request to the emergency machine that falls back to plain SUPL does so for its own
  // handle exactly when no active subscriber has been left in the list before it.
  lemma FallbackServesRequesterIff(m: Machine, h: int, env: Env, g: int)
    requires m.kind == Ds && m.state == Released && !Has(m.subs, h)
    requires PostSupl(g) in Step(m, Subscribe(h, true), env).out
    ensures g == h <==> !AnyActive(m.subs)
    ensures g != h ==> Has(m.subs, g)
    ensures Has(Step(m, Subscribe(h, true), env).m.subs, h)
  {
    var subs := m.subs + [Subscriber(h, true, false)];
    var i := FirstActive(subs);
    assert subs[|m.subs|] == Subscriber(h, true, false);
    AgpsRuns.ConnKeepsList(m.(subs := subs), true, env);
    assert g == subs[i].handle;
    assert i < |m.subs| ==> m.subs[i] in m.subs;
    if AnyActive(m.subs) {
      var s :| s in m.subs && !s.inactive;
      var j :| 0 <= j < |m.subs| && m.subs[j] == s;
      assert !subs[j].inactive;
    }
    hide FirstActive;
  }

  const WITH_PDN := Config(true, true)
  const NO_START := Env(false, true, Success)

  // Handle 1 has fallen back.
  const FALLEN := State(
    Some(Init(Base)), Init(Base), Some(Machine(Ds, Released, [Subscriber(1, true, false)], 0)), [Post(1, Supl)])

  lemma FallbackLeavesSubscriber()
    ensures Handle(WITH_PDN, Start(WITH_PDN, true), Request(1, SuplEs, true, NO_START)).0 == FALLEN
  {
    assert Posts([PostSupl(1)], 0) == [] && Posts([PostSupl(1)], 1) == [Post(1, Supl)];
    var subs := [Subscriber(1, true, false)];
    assert Add([], subs[0]) == subs && FirstActive(subs) == 0;
  }

  // The plain machine serves it and releases it; the emergency machine lists it all the same.
  lemma ReleaseForgetsOtherList()
    ensures var s := Handle(WITH_PDN, FALLEN, Posted(true, NO_START)).0;
      && Lists(s, Agnss, 1) && Lists(s, Emergency, 1)
      && Handle(WITH_PDN, s, Release(1, NO_START)).0 == FALLEN.(posts := [])
  {
    var sub := Subscriber(1, false, false);
    var m := Machine(Base, Pending, [sub], 0);
    assert Add([], sub) == [sub] && m.subs[0] == sub && FALLEN.emergency.value.subs[0].handle == 1;
    var s := Handle(WITH_PDN, FALLEN, Posted(true, NO_START)).0;
    assert Posts([RequestConn], 0) == [] && Posts([RequestConn], 1) == [];
    assert s == FALLEN.(agnss := Some(m), posts := []);
    assert Find(m.subs, 1) == 0 && Without(m.subs, 0, 1) == [] && Without(m.subs, 1, 1) == [];
    var out := [CloseStatus(1, true), ReleaseConn];
    assert OnUnsubscribe(m, 1, NO_START) == Effect(Init(Base), out);
    assert Posts(out, 1) == [] && Posts(out, 2) == [];
  }

  // When handle 2 falls back then, the plain connection is asked for on behalf of 1 again; 2 is
  // left in the emergency machine's list, without a request of its own.
  lemma StaleSubscriberTakesFallback()
    ensures var (t, out) := Handle(WITH_PDN, FALLEN.(posts := []), Request(2, SuplEs, true, NO_START));
      out == [PostSupl(1)] && t.posts == [Post(1, Supl)] && Lists(t, Emergency, 2)
  {
    LeftByTwo();
  }

  // The emergency machine that this leaves.
  const STALE := Machine(Ds, Released, [Subscriber(1, true, false), Subscriber(2, true, false)], 0)

  lemma LeftByTwo()
    ensures var (t, out) := Handle(WITH_PDN, FALLEN.(posts := []), Request(2, SuplEs, true, NO_START));
      out == [PostSupl(1)] && t == FALLEN.(emergency := Some(STALE), posts := [Post(1, Supl)])
  {
    var subs := STALE.subs;
    assert Add([subs[0]], subs[1]) == subs && FirstActive(subs) == 0 && subs[1].handle == 2;
    assert Posts([PostSupl(1)], 0) == [] && Posts([PostSupl(1)], 1) == [Post(1, Supl)];
  }

  /* ---------- when a subscriber of the emergency machine is answered ---------- */

  ghost predicate Active(subs: seq<Subscriber>, h: int) { exists s :: s in subs && s.handle == h && !s.inactive }

  lemma {:induction false} GrantNotices(subs: seq<Subscriber>, k: nat, h: int)
    requires k <= |subs|
    ensures OpenStatus(h, true) in Notices(Ds, Granted, subs, k, ForActive) <==>
      exists j :: 0 <= j < k && subs[j].handle == h && !subs[j].inactive
  {
    if k > 0 {
      GrantNotices(subs, k - 1, h);
    }
  }

  lemma {:induction false} NoGrantNotices(e: Event, subs: seq<Subscriber>, k: nat, t: Target, h: int)
    requires k <= |subs| && !e.Granted?
    ensures OpenStatus(h, true) !in Notices(Ds, e, subs, k, t)
  {
    if k > 0 {
      NoGrantNotices(e, subs, k - 1, t, h);
    }
  }

  lemma UnsubscribeGrantsNobody(m: Machine, g: int, env: Env, h: int)
    requires m.kind == Ds
    ensures OpenStatus(h, true) !in OnUnsubscribe(m, g, env).out
  {
    hide Find, FirstActive, Without, AnyActive;
  }

  lemma ClosedGrantsNobody(m: Machine, env: Env, h: int)
    requires m.kind == Ds
    ensures OpenStatus(h, true) !in OnClosed(m, env).out
  {
    hide Kept, Notices, RetriesOver, FirstActive, AnyActive;
    NoGrantNotices(ConnReleased, m.subs, |m.subs|, ForInactive, h);
  }

  lemma CloseGrantsNobody(m: Machine, env: Env, h: int)
    requires m.kind == Ds
    ensures OpenStatus(h, true) !in OnReleased(m, env).out && OpenStatus(h, true) !in OnDenied(m, env).out
  {
    hide Kept, Notices, RetriesOver, OnClosed;
    NoGrantNotices(ConnReleased, m.subs, |m.subs|, ForAll, h);
    NoGrantNotices(Denied, m.subs, |m.subs|, ForAll, h);
    ClosedGrantsNobody(m, env, h);
  }

  // A handle is told that its connection is open exactly when a grant finds it listed and active
  // on a pending machine, whoever the call was made for; or it asks a machine that is connected.
  lemma GrantAnswersIff(m: Machine, e: Event, env: Env, h: int)
    requires m.kind == Ds
    ensures OpenStatus(h, true) in Step(m, e, env).out <==>
      || (e.Granted? && m.state == Pending && Active(m.subs, h))
      || (e.Subscribe? && e.handle == h && m.state == Acquired)
  {
    match e {
      case Unsubscribe(g) => UnsubscribeGrantsNobody(m, g, env, h);
      case Granted =>
        GrantNotices(m.subs, |m.subs|, h);
        assert Active(m.subs, h) <==> exists j :: 0 <= j < |m.subs| && m.subs[j].handle == h && !m.subs[j].inactive;
      case ConnReleased => CloseGrantsNobody(m, env, h);
      case Denied => CloseGrantsNobody(m, env, h);
      case _ =>
    }
    hide OnUnsubscribe, OnReleased, OnDenied, Notices, Kept, RetriesOver, FirstActive, Has;
  }

  // So 2 is answered after all if somebody else's call succeeds while it is still listed.
  lemma NextCallAnswersStale()
    ensures var env := Env(true, true, Success);
      var m := Step(STALE, Subscribe(3, true), env).m;
      m.state == Pending && OpenStatus(2, true) in Step(m, Granted, env).out
  {
    var env := Env(true, true, Success);
    var m := Step(STALE, Subscribe(3, true), env).m;
    var subs := STALE.subs + [Subscriber(3, true, false)];
    assert Add(STALE.subs, Subscriber(3, true, false)) == subs by {
      assert STALE.subs[0].handle == 1 && STALE.subs[1].handle == 2;
    }
    assert FirstActive(subs) == 0 && subs[1] == Subscriber(2, true, false);
    assert m == Machine(Ds, Pending, subs, 0);
    assert subs[1] in subs;
    GrantAnswersIff(m, Granted, env, 2);
    hide Step;
  }

  /* ---------- the source's object ---------- */

  class AgpsManager {
    const config: Config
    var agnssNif: AgpsStateMachine?
    var internetNif: AgpsStateMachine
    var dsNif: AgpsStateMachine?
    ghost var posts: seq<Post>

    ghost predicate Valid()
      reads this
    {
      && internetNif.kind == Base && agnssNif != internetNif
      && (agnssNif != null ==> agnssNif.kind == Base) && (dsNif != null ==> dsNif.kind == Ds)
    }

    ghost function View(): State
      reads this, agnssNif, internetNif, dsNif
    {
      State(if agnssNif == null then None else Some(agnssNif.View()), internetNif.View(),
            if dsNif == null then None else Some(dsNif.View()), posts)
    }

    ghost function NifOf(nif: Nif): AgpsStateMachine?
      reads this
    {
      match nif
      case Agnss => agnssNif
      case Internet => internetNif
      case Emergency => dsNif
    }

    constructor (config: Config, created: bool)
      ensures Valid() && View() == Start(config, created) && this.config == config
      ensures forall nif :: NifOf(nif) != null ==> fresh(NifOf(nif))
    {
      this.config, posts, agnssNif, dsNif := config, [], null, null;
      internetNif := new AgpsStateMachine(Base);
      new;
      if config.agpsCapable {
        agnssNif := new AgpsStateMachine(Base);
        if config.emergencyPdn && created {
          dsNif := new AgpsStateMachine(Ds);
        }
      }
    }

    method GetAgpsStateMachine(kind: Type, created: bool) returns (sm: AgpsStateMachine?)
      requires Valid()
      modifies this`dsNif
      ensures Valid() && View() == Ensure(config, old(View()), kind, created)
      ensures sm == NifOf(Route(config, kind)) && (dsNif == old(dsNif) || fresh(dsNif))
    {
      match kind {
        case Supl => sm := agnssNif;
        case SuplEs =>
          if config.emergencyPdn {
            if dsNif == null && config.agpsCapable && created {
              dsNif := new AgpsStateMachine(Ds);
            }
            sm := dsNif;
          } else {
            sm := agnssNif;
          }
        case WwanAny => sm := internetNif;
      }
    }

    // An event handled by one machine, and the requests it posts.
    method Process(sm: AgpsStateMachine, ghost nif: Nif, e: Event, env: Env) returns (ghost out: seq<Action>)
      requires Valid() && sm == NifOf(nif)
      modifies this`posts, sm
      ensures Valid() && (View(), out) == Feed(old(View()), nif, e, env)
    {
      out := Step(sm.View(), e, env).out;
      sm.ProcessAgpsEvent(e, env);
      posts := posts + Posts(out, |out|);
      hide Step;
    }

    method RequestATL(h: int, kind: Type, created: bool, env: Env) returns (ghost out: seq<Action>)
      requires Valid()
      modifies this, agnssNif, internetNif, dsNif
      ensures Valid() && (View(), out) == OnRequest(config, old(View()), h, kind, created, env)
    {
      var sm := GetAgpsStateMachine(kind, created);
      if sm == null {
        return [OpenStatus(h, false)];
      }
      out := Process(sm, Route(config, kind), Subscribe(h, kind.SuplEs?), env);
      hide Step;
    }

    method ReleaseATL(h: int, env: Env) returns (ghost out: seq<Action>)
      requires Valid()
      modifies this, agnssNif, internetNif, dsNif
      ensures Valid() && (View(), out) == OnRelease(old(View()), h, env)
    {
      hide Step, Feed;
      var sm: AgpsStateMachine?, i := null, 0;
      ghost var nif := Agnss;
      if agnssNif != null {
        i := agnssNif.GetSubscriber(h);
        FoundIffListed(agnssNif.subs, h);
        if i < |agnssNif.subs| {
          sm, nif := agnssNif, Agnss;
        }
      }
      if sm == null {
        i := internetNif.GetSubscriber(h);
        FoundIffListed(internetNif.subs, h);
        if i < |internetNif.subs| {
          sm, nif := internetNif, Internet;
        }
      }
      if sm == null && dsNif != null {
        i := dsNif.GetSubscriber(h);
        FoundIffListed(dsNif.subs, h);
        if i < |dsNif.subs| {
          sm, nif := dsNif, Emergency;
        }
      }
      if sm == null {
        return [CloseStatus(h, false)];
      }
      out := Process(sm, nif, Unsubscribe(h), env);
    }

    method ReportAtl(kind: Type, e: Event, created: bool, env: Env) returns (ghost out: seq<Action>)
      requires Valid() && Enabled(config, View(), Report(kind, e, created, env))
      modifies this, agnssNif, internetNif, dsNif
      ensures Valid() && (View(), out) == Handle(config, old(View()), Report(kind, e, created, env))
    {
      var sm := GetAgpsStateMachine(kind, created);
      out := Process(sm, Route(config, kind), e, env);
      hide Step;
    }

    method ReportDataCall(e: Event, env: Env) returns (ghost out: seq<Action>)
      requires Valid() && Enabled(config, View(), DataCall(e, env))
      modifies this, dsNif
      ensures Valid() && (View(), out) == Handle(config, old(View()), DataCall(e, env))
    {
      out := [];
      if dsNif != null {
        out := Process(dsNif, Emergency, e, env);
      }
      hide Step;
    }

    method HandleModemSSR(env: Env) returns (ghost out: seq<Action>)
      requires Valid()
      modifies this, agnssNif, internetNif, dsNif
      ensures Valid() && (View(), out) == Handle(config, old(View()), Restart(env))
    {
      hide Step;
      if agnssNif != null {
        var _ := Process(agnssNif, Agnss, ModemRestart, env);
      }
      var _ := Process(internetNif, Internet, ModemRestart, env);
      if dsNif != null {
        var _ := Process(dsNif, Emergency, ModemRestart, env);
      }
      out := if config.emergencyPdn then [StopDataCall, CloseDataCall] else [];
    }
  }

  lemma FoundIffListed(subs: seq<Subscriber>, h: int)
    ensures Find(subs, h) < |subs| <==> Has(subs, h)
  {
  }
}
