/**
 Network-initiated (NI) requests: gps/gnss/GnssAdapter.cpp.

 The adapter stores a request in one of two sessions and starts a thread.  The thread waits for the
 user's response or for its time limit, takes the request out of the session, and posts it back
 to the adapter, which hands it to the modem.  The adapter reads the sessions without their lock.
 `Step` is one step of the adapter or of one thread; a run is any interleaving.
 */
module NiSession {
  import opened Wrappers

  type Payload = int

  datatype Kind = Supl | Emergency

  datatype Response = Accept | Deny | NoResponse | Ignore

  datatype Session = Session(raw: Option<Payload>, reqId: nat, resp: Response, respRecvd: bool)

  datatype Answer = Answer(payload: Payload, resp: Response)

  // A thread: not yet waiting, waiting, out of its critical section, and past clearing the id.
  datatype Pc = Spawned | Blocked | Left(carry: Option<Answer>) | Cleared(carry: Option<Answer>) | Exited

  datatype Thread = Thread(kind: Kind, pc: Pc)

  // Where the adapter is inside a message: about to start the thread; about to look at, or write
  // to, the ordinary session for an accepted emergency; about to write the response.
  datatype Adapter =
    | Idle
    | Notifying(kind: Kind)
    | Checking(resp: Response)
    | Ignoring(resp: Response)
    | Responding(kind: Kind, resp: Response)

  datatype Reason = Ignored | Busy | NoCallback

  datatype Drop = Drop(payload: Payload, why: Reason)

  // `posts` are the messages from threads, of which the first `informed` have been handled, that
  // is, handed to the modem and freed.  `arrived` and `dropped` record the rest of every payload's
  // fate: Ignored and Busy ones are freed, and NoCallback ones are not.
  datatype State = State(
    supl: Session, emergency: Session, counter: nat, threads: seq<Thread>, adapter: Adapter,
    posts: seq<Answer>, informed: nat, arrived: seq<Payload>, dropped: seq<Drop>)
  {
    function Of(kind: Kind): Session { if kind.Supl? then supl else emergency }

    function With(kind: Kind, x: Session): State {
      if kind.Supl? then this.(supl := x) else this.(emergency := x)
    }
  }

  const EMPTY := Session(None, 0, Accept, false)
  const INIT := State(EMPTY, EMPTY, 0, [], Idle, [], 0, [], [])

  datatype Event =
    | Arrive(kind: Kind, data: Option<Payload>, hasCallback: bool)
    | Spawn(created: bool)
    | Respond(known: bool, id: nat, resp: Response)
    | Write
    | Inform
    | Block(i: nat)
    | Consume(i: nat, timedOut: bool)
    | Clear(i: nat)
    | Post(i: nat)

  function Gone(s: State, data: Option<Payload>, why: Reason): State {
    if data.Some? then s.(dropped := s.dropped + [Drop(data.value, why)]) else s
  }

  function Noted(s: State, data: Option<Payload>): State {
    if data.Some? then s.(arrived := s.arrived + [data.value]) else s
  }

  // requestNiNotify, up to the start of the thread.
  function OnArrive(s: State, kind: Kind, data: Option<Payload>, hasCallback: bool): State {
    var a := Noted(s, data);
    if !hasCallback then Gone(a, data, NoCallback)
    else if s.emergency.raw.Some? || (kind.Supl? && s.supl.raw.Some?) then Gone(a, data, Busy)
    else
      var x := s.Of(kind).(raw := data, reqId := s.counter + 1);
      a.(counter := s.counter + 1, adapter := Notifying(kind)).With(kind, x)
  }

  function OnSpawn(s: State, created: bool): State
    requires s.adapter.Notifying?
  {
    s.(adapter := Idle,
       threads := if created then s.threads + [Thread(s.adapter.kind, Spawned)] else s.threads)
  }

  // gnssNiResponseCommand of a client, up to its first write.
  function OnRespond(s: State, known: bool, id: nat, resp: Response): State {
    if !known then s
    else if id == s.emergency.reqId && s.emergency.raw.Some? then
      s.(adapter := if resp == Accept then Checking(resp) else Responding(Emergency, resp))
    else if id == s.supl.reqId && s.supl.raw.Some? then s.(adapter := Responding(Supl, resp))
    else s
  }

  function Answered(s: State, kind: Kind, resp: Response): State {
    s.With(kind, s.Of(kind).(resp := resp, respRecvd := true))
  }

  function OnWrite(s: State): State
    requires !s.adapter.Idle? && !s.adapter.Notifying?
  {
    match s.adapter
    case Checking(resp) =>
      s.(adapter := if s.supl.raw.Some? then Ignoring(resp) else Responding(Emergency, resp))
    case Ignoring(resp) => Answered(s, Supl, Ignore).(adapter := Responding(Emergency, resp))
    case Responding(kind, resp) => Answered(s, kind, resp).(adapter := Idle)
  }

  function At(s: State, i: nat, pc: Pc): State
    requires i < |s.threads|
  {
    s.(threads := s.threads[i := s.threads[i].(pc := pc)])
  }

  // The critical section at the end of the thread's wait.
  function OnConsume(s: State, i: nat, timedOut: bool): State
    requires i < |s.threads|
  {
    var kind := s.threads[i].kind;
    var x := s.Of(kind);
    var resp := if timedOut then NoResponse else x.resp;
    var t := s.With(kind, x.(raw := None, resp := resp, respRecvd := false));
    if x.raw.None? then At(t, i, Left(None))
    else if resp != Ignore then At(t, i, Left(Some(Answer(x.raw.value, resp))))
    else At(Gone(t, x.raw, Ignored), i, Left(None))
  }

  function OnClear(s: State, i: nat): State
    requires i < |s.threads| && s.threads[i].pc.Left?
  {
    var kind := s.threads[i].kind;
    At(s.With(kind, s.Of(kind).(reqId := 0)), i, Cleared(s.threads[i].pc.carry))
  }

  function OnPost(s: State, i: nat): State
    requires i < |s.threads| && s.threads[i].pc.Cleared?
  {
    var carry := s.threads[i].pc.carry;
    At(s.(posts := if carry.Some? then s.posts + [carry.value] else s.posts), i, Exited)
  }

  // A thread leaves its wait if it has a response, or, once it is waiting, at its time limit: and
  // the limit wins if both have happened.
  predicate Enabled(s: State, e: Event) {
    match e
    case Arrive(_, _, _) => s.adapter.Idle?
    case Spawn(_) => s.adapter.Notifying?
    case Respond(_, _, _) => s.adapter.Idle?
    case Write => !s.adapter.Idle? && !s.adapter.Notifying?
    case Inform => s.adapter.Idle? && s.informed < |s.posts|
    case Block(i) => i < |s.threads| && s.threads[i].pc.Spawned? && !s.Of(s.threads[i].kind).respRecvd
    case Consume(i, timedOut) =>
      i < |s.threads| && Awaits(s.threads[i]) &&
      if timedOut then s.threads[i].pc.Blocked? else s.Of(s.threads[i].kind).respRecvd
    case Clear(i) => i < |s.threads| && s.threads[i].pc.Left?
    case Post(i) => i < |s.threads| && s.threads[i].pc.Cleared?
  }

  predicate Awaits(t: Thread) { t.pc.Spawned? || t.pc.Blocked? }

  function Step(s: State, e: Event): State
    requires Enabled(s, e)
  {
    match e
    case Arrive(kind, data, hasCallback) => OnArrive(s, kind, data, hasCallback)
    case Spawn(created) => OnSpawn(s, created)
    case Respond(known, id, resp) => OnRespond(s, known, id, resp)
    case Write => OnWrite(s)
    case Inform => s.(informed := s.informed + 1)
    case Block(i) => At(s, i, Blocked)
    case Consume(i, timedOut) => OnConsume(s, i, timedOut)
    case Clear(i) => OnClear(s, i)
    case Post(i) => OnPost(s, i)
  }

  // The state after the first k steps, if each of them could happen.
  ghost function After(init: State, run: seq<Event>, k: nat): Option<State>
    requires k <= |run|
  {
    if k == 0 then Some(init)
    else
      var s := After(init, run, k - 1);
      if s.Some? && Enabled(s.value, run[k - 1]) then Some(Step(s.value, run[k - 1])) else None
  }

  lemma OneMore(init: State, run: seq<Event>, k: nat, s: State, e: Event)
    requires k < |run| && After(init, run, k) == Some(s) && run[k] == e && Enabled(s, e)
    ensures After(init, run, k + 1) == Some(Step(s, e))
  {
  }

  ghost predicate Feasible(init: State, run: seq<Event>) {
    forall k :: 0 <= k <= |run| ==> After(init, run, k).Some?
  }

  ghost function StateAt(init: State, run: seq<Event>, k: nat): State
    requires Feasible(init, run) && k <= |run|
  {
    After(init, run, k).value
  }

  lemma Unfold(init: State, run: seq<Event>, k: nat)
    requires Feasible(init, run) && k < |run|
    ensures var s := StateAt(init, run, k); Enabled(s, run[k]) && StateAt(init, run, k + 1) == Step(s, run[k])
  {
    assert After(init, run, k + 1).Some?;
  }

  /* ---------- no payload is lost or used twice ---------- */

  function Is(o: Option<Payload>, p: Payload): nat { if o == Some(p) then 1 else 0 }

  function CarriedBy(t: Thread, p: Payload): nat {
    if (t.pc.Left? || t.pc.Cleared?) && t.pc.carry.Some? && t.pc.carry.value.payload == p then 1 else 0
  }

  // How often p occurs among the first k.
  ghost function Carried(threads: seq<Thread>, k: nat, p: Payload): nat
    requires k <= |threads|
  {
    if k == 0 then 0 else Carried(threads, k - 1, p) + CarriedBy(threads[k - 1], p)
  }

  ghost function Posted(posts: seq<Answer>, k: nat, p: Payload): nat
    requires k <= |posts|
  {
    if k == 0 then 0 else Posted(posts, k - 1, p) + if posts[k - 1].payload == p then 1 else 0
  }

  ghost function Dropped(dropped: seq<Drop>, k: nat, p: Payload, why: Reason): nat
    requires k <= |dropped|
  {
    if k == 0 then 0 else Dropped(dropped, k - 1, p, why) + if dropped[k - 1] == Drop(p, why) then 1 else 0
  }

  ghost function Arrived(arrived: seq<Payload>, k: nat, p: Payload): nat
    requires k <= |arrived|
  {
    if k == 0 then 0 else Arrived(arrived, k - 1, p) + if arrived[k - 1] == p then 1 else 0
  }

  lemma {:induction false} CarriedSame(a: seq<Thread>, b: seq<Thread>, k: nat, p: Payload)
    requires k <= |a| && k <= |b| && forall j :: 0 <= j < k ==> CarriedBy(a[j], p) == CarriedBy(b[j], p)
    ensures Carried(a, k, p) == Carried(b, k, p)
  {
    if k > 0 { CarriedSame(a, b, k - 1, p); }
  }

  lemma {:induction false} PostedSame(a: seq<Answer>, b: seq<Answer>, k: nat, p: Payload)
    requires k <= |a| && k <= |b| && forall j :: 0 <= j < k ==> a[j] == b[j]
    ensures Posted(a, k, p) == Posted(b, k, p)
  {
    if k > 0 { PostedSame(a, b, k - 1, p); }
  }

  lemma {:induction false} DroppedSame(a: seq<Drop>, b: seq<Drop>, k: nat, p: Payload, why: Reason)
    requires k <= |a| && k <= |b| && forall j :: 0 <= j < k ==> a[j] == b[j]
    ensures Dropped(a, k, p, why) == Dropped(b, k, p, why)
  {
    if k > 0 { DroppedSame(a, b, k - 1, p, why); }
  }

  lemma {:induction false} ArrivedSame(a: seq<Payload>, b: seq<Payload>, k: nat, p: Payload)
    requires k <= |a| && k <= |b| && forall j :: 0 <= j < k ==> a[j] == b[j]
    ensures Arrived(a, k, p) == Arrived(b, k, p)
  {
    if k > 0 { ArrivedSame(a, b, k - 1, p); }
  }

  // One thread changes.
  lemma {:induction false} CarriedUpdate(threads: seq<Thread>, i: nat, t: Thread, k: nat, p: Payload)
    requires i < k <= |threads|
    ensures Carried(threads[i := t], k, p) + CarriedBy(threads[i], p) == Carried(threads, k, p) + CarriedBy(t, p)
  {
    if k - 1 == i {
      CarriedSame(threads, threads[i := t], i, p);
    } else {
      CarriedUpdate(threads, i, t, k - 1, p);
    }
  }

  ghost function Lost(dropped: seq<Drop>, p: Payload, why: Reason): nat { Dropped(dropped, |dropped|, p, why) }

  // Where a payload that was accepted is now: stored, carried by a thread, posted, or ignored.
  ghost function Held(s: State, p: Payload): nat {
    Is(s.supl.raw, p) + Is(s.emergency.raw, p) + Carried(s.threads, |s.threads|, p) +
    Posted(s.posts, |s.posts|, p) + Lost(s.dropped, p, Ignored)
  }

  ghost function Places(s: State, p: Payload): nat {
    Held(s, p) + Lost(s.dropped, p, Busy) + Lost(s.dropped, p, NoCallback)
  }

  ghost predicate Conserved(s: State, p: Payload) { Arrived(s.arrived, |s.arrived|, p) == Places(s, p) }

  lemma GoneConserves(s: State, data: Option<Payload>, why: Reason, p: Payload)
    ensures var t := Gone(s, data, why);
      && Lost(t.dropped, p, Ignored) == Lost(s.dropped, p, Ignored) + (if why.Ignored? then Is(data, p) else 0)
      && Lost(t.dropped, p, Busy) == Lost(s.dropped, p, Busy) + (if why.Busy? then Is(data, p) else 0)
      && Lost(t.dropped, p, NoCallback) == Lost(s.dropped, p, NoCallback) + (if why.NoCallback? then Is(data, p) else 0)
  {
    var t := Gone(s, data, why);
    DroppedSame(s.dropped, t.dropped, |s.dropped|, p, Ignored);
    DroppedSame(s.dropped, t.dropped, |s.dropped|, p, Busy);
    DroppedSame(s.dropped, t.dropped, |s.dropped|, p, NoCallback);
  }

  lemma ArriveConserves(s: State, kind: Kind, data: Option<Payload>, hasCallback: bool, p: Payload)
    requires Conserved(s, p)
    ensures Conserved(OnArrive(s, kind, data, hasCallback), p)
  {
    var a := Noted(s, data);
    ArrivedSame(s.arrived, a.arrived, |s.arrived|, p);
    GoneConserves(a, data, if hasCallback then Busy else NoCallback, p);
    hide Lost, Arrived;
  }

  lemma ConsumeConserves(s: State, i: nat, timedOut: bool, p: Payload)
    requires Conserved(s, p) && Enabled(s, Consume(i, timedOut))
    ensures Conserved(OnConsume(s, i, timedOut), p)
  {
    var t := OnConsume(s, i, timedOut);
    CarriedUpdate(s.threads, i, t.threads[i], |s.threads|, p);
    GoneConserves(s, s.Of(s.threads[i].kind).raw, Ignored, p);
    hide Lost;
  }

  lemma PostConserves(s: State, i: nat, p: Payload)
    requires Conserved(s, p) && Enabled(s, Post(i))
    ensures Conserved(OnPost(s, i), p)
  {
    var t := OnPost(s, i);
    CarriedUpdate(s.threads, i, t.threads[i], |s.threads|, p);
    PostedSame(s.posts, t.posts, |s.posts|, p);
  }

  lemma SpawnConserves(s: State, created: bool, p: Payload)
    requires Conserved(s, p) && s.adapter.Notifying?
    ensures Conserved(OnSpawn(s, created), p)
  {
    CarriedSame(s.threads, OnSpawn(s, created).threads, |s.threads|, p);
  }

  lemma ClearConserves(s: State, i: nat, p: Payload)
    requires Conserved(s, p) && Enabled(s, Clear(i))
    ensures Conserved(OnClear(s, i), p)
  {
    CarriedUpdate(s.threads, i, OnClear(s, i).threads[i], |s.threads|, p);
  }

  lemma StepConserves(s: State, e: Event, p: Payload)
    requires Conserved(s, p) && Enabled(s, e)
    ensures Conserved(Step(s, e), p)
  {
    hide OnArrive, OnConsume, OnPost, OnSpawn, OnClear, Lost;
    match e {
      case Arrive(kind, data, hasCallback) => ArriveConserves(s, kind, data, hasCallback, p);
      case Spawn(created) => SpawnConserves(s, created, p);
      case Block(i) => CarriedUpdate(s.threads, i, s.threads[i].(pc := Blocked), |s.threads|, p);
      case Clear(i) => ClearConserves(s, i, p);
      case Consume(i, timedOut) => ConsumeConserves(s, i, timedOut, p);
      case Post(i) => PostConserves(s, i, p);
      case _ =>
    }
  }

  // In every interleaving, whatever the threads, callbacks and payloads do, each payload that has
  // arrived is in exactly as many places as it has arrived.
  lemma {:induction false} PayloadsAreConserved(run: seq<Event>, k: nat, p: Payload)
    requires Feasible(INIT, run) && k <= |run|
    ensures Conserved(StateAt(INIT, run, k), p)
  {
    hide Step, Enabled, Feasible, StateAt, Conserved;
    if k == 0 {
      InitConserves(run, p);
    } else {
      PayloadsAreConserved(run, k - 1, p);
      Unfold(INIT, run, k - 1);
      StepConserves(StateAt(INIT, run, k - 1), run[k - 1], p);
    }
  }

  lemma InitConserves(run: seq<Event>, p: Payload)
    requires Feasible(INIT, run)
    ensures Conserved(StateAt(INIT, run, 0), p)
  {
  }

  // What becomes of a payload when it arrives.
  datatype Fate = Accepted | Refused | Unheard

  predicate Brings(e: Event, p: Payload) { e.Arrive? && e.data == Some(p) }

  // A request of this kind can be stored: an emergency only waits for an emergency, an ordinary one
  // for both.
  predicate Free(s: State, kind: Kind) {
    match kind
    case Emergency => s.emergency.raw == None
    case Supl => s.supl.raw == None == s.emergency.raw
  }

  function FateOf(s: State, e: Event): Fate
    requires e.Arrive?
  {
    if !e.hasCallback then Unheard else if Free(s, e.kind) then Accepted else Refused
  }

  predicate Meets(s: State, e: Event, p: Payload, fate: Fate) { Brings(e, p) && FateOf(s, e) == fate }

  // A request is stored exactly if a client has a callback and no request keeps it out, an emergency
  // whatever the ordinary session holds; it then has the next id.  Otherwise the sessions are left
  // as they are, and its payload is dropped for the reason there is.
  lemma ArrivalIsStoredIff(s: State, kind: Kind, data: Option<Payload>, hasCallback: bool)
    requires s.adapter.Idle?
    ensures var t := Step(s, Arrive(kind, data, hasCallback));
      var (x, other) := (t.Of(kind), if kind.Supl? then Emergency else Supl);
      && (hasCallback && Free(s, kind) <==> t.adapter == Notifying(kind))
      && (hasCallback && Free(s, kind) <==> t.counter == s.counter + 1)
      && (t.counter == s.counter + 1 ==> x.raw == data && x.reqId == t.counter && t.dropped == s.dropped)
      && (t.counter != s.counter + 1 ==> x == s.Of(kind) && t.adapter.Idle? && t.counter == s.counter)
      && (t.counter != s.counter + 1 && data.Some? ==>
            t.dropped == s.dropped + [Drop(data.value, if hasCallback then Busy else NoCallback)])
      && (t.counter != s.counter + 1 && data.None? ==> t.dropped == s.dropped)
      && t.Of(other) == s.Of(other) && t.threads == s.threads && t.posts == s.posts
  {
  }

  // How often p has arrived with this fate.
  ghost function Arrivals(run: seq<Event>, k: nat, p: Payload, fate: Fate): nat
    requires Feasible(INIT, run) && k <= |run|
  {
    if k == 0 then 0
    else Arrivals(run, k - 1, p, fate) + if Meets(StateAt(INIT, run, k - 1), run[k - 1], p, fate) then 1 else 0
  }

  ghost function AllArrived(s: State, p: Payload): nat { Arrived(s.arrived, |s.arrived|, p) }

  // A step drops a payload as busy, or for want of a callback, exactly if it arrives with that fate.
  lemma StepCounts(s: State, e: Event, p: Payload)
    requires Enabled(s, e)
    ensures var t := Step(s, e);
      && AllArrived(t, p) == AllArrived(s, p) + (if Brings(e, p) then 1 else 0)
      && Lost(t.dropped, p, Busy) == Lost(s.dropped, p, Busy) + (if Meets(s, e, p, Refused) then 1 else 0)
      && Lost(t.dropped, p, NoCallback) == Lost(s.dropped, p, NoCallback) + (if Meets(s, e, p, Unheard) then 1 else 0)
  {
    if e.Arrive? {
      var a := Noted(s, e.data);
      ArrivedSame(s.arrived, a.arrived, |s.arrived|, p);
      GoneConserves(a, e.data, if e.hasCallback then Busy else NoCallback, p);
    } else if e.Consume? {
      GoneConserves(s, s.Of(s.threads[e.i].kind).raw, Ignored, p);
    }
    hide Arrived, Dropped;
  }

  // In every interleaving, the accepted payloads are those that are held or were handed on or
  // ignored; the others are dropped, and for the reason there was.
  lemma FatesAreKept(run: seq<Event>, k: nat, p: Payload)
    requires Feasible(INIT, run) && k <= |run|
    ensures var s := StateAt(INIT, run, k);
      && Arrivals(run, k, p, Accepted) == Held(s, p)
      && Arrivals(run, k, p, Refused) == Lost(s.dropped, p, Busy)
      && Arrivals(run, k, p, Unheard) == Lost(s.dropped, p, NoCallback)
  {
    hide Held;
    PayloadsAreConserved(run, k, p);
    CountsAddUp(run, k, p);
  }

  lemma {:induction false} CountsAddUp(run: seq<Event>, k: nat, p: Payload)
    requires Feasible(INIT, run) && k <= |run|
    ensures var s := StateAt(INIT, run, k);
      && AllArrived(s, p) ==
         Arrivals(run, k, p, Accepted) + Arrivals(run, k, p, Refused) + Arrivals(run, k, p, Unheard)
      && Arrivals(run, k, p, Refused) == Lost(s.dropped, p, Busy)
      && Arrivals(run, k, p, Unheard) == Lost(s.dropped, p, NoCallback)
  {
    if k > 0 {
      hide Step, Enabled, Feasible, StateAt, Lost, AllArrived, FateOf;
      CountsAddUp(run, k - 1, p);
      Unfold(INIT, run, k - 1);
      StepCounts(StateAt(INIT, run, k - 1), run[k - 1], p);
    }
  }

  /* ---------- a request is never stored over another ---------- */

  // A step leaves a stored payload where it is, or a thread of that session takes it out; and only
  // an arrival at a session that is free puts one in.
  lemma StoredIsNeverOverwritten(s: State, e: Event, kind: Kind)
    requires Enabled(s, e)
    ensures var (x, y) := (s.Of(kind).raw, Step(s, e).Of(kind).raw);
      && (x.Some? ==> y == if e.Consume? && s.threads[e.i].kind == kind then None else x)
      && (x.None? && y.Some? ==>
            e == Arrive(kind, y, true) && Free(s, kind) && Step(s, e).adapter == Notifying(kind))
  {
  }

  /* ---------- every stored request is attended to ---------- */

  ghost predicate Waits(s: State, kind: Kind, i: nat) {
    i < |s.threads| && s.threads[i].kind == kind && Awaits(s.threads[i])
  }

  ghost predicate Attended(s: State, kind: Kind) {
    s.Of(kind).raw.Some? ==> s.adapter == Notifying(kind) || exists i :: Waits(s, kind, i)
  }

  lemma WaitersFrame(s: State, e: Event, kind: Kind)
    requires Enabled(s, e)
    ensures forall i: nat :: Waits(Step(s, e), kind, i) <==>
      || (Waits(s, kind, i) && !(e.Consume? && e.i == i))
      || (e == Spawn(true) && s.adapter == Notifying(kind) && i == |s.threads|)
  {
    if e.Arrive? || e.Respond? || e.Write? || e.Inform? {
      assert Step(s, e).threads == s.threads;
    }
  }

  lemma NotifyingFrame(s: State, e: Event, kind: Kind)
    requires Enabled(s, e)
    ensures Step(s, e).adapter == Notifying(kind) <==>
      || (s.adapter == Notifying(kind) && !e.Spawn?)
      || (e.Arrive? && e.kind == kind && e.hasCallback && Free(s, kind))
  {
  }

  // Who waits and who is about to be started, after a step.
  lemma StepFrame(s: State, e: Event, kind: Kind)
    requires Enabled(s, e)
    ensures forall i: nat :: Waits(Step(s, e), kind, i) <==>
      || (Waits(s, kind, i) && !(e.Consume? && e.i == i))
      || (e == Spawn(true) && s.adapter == Notifying(kind) && i == |s.threads|)
    ensures e.Consume? ==> e.i < |s.threads| && Waits(s, s.threads[e.i].kind, e.i)
    ensures Step(s, e).adapter == Notifying(kind) <==>
      || (s.adapter == Notifying(kind) && !e.Spawn?)
      || (e.Arrive? && e.kind == kind && e.hasCallback && Free(s, kind))
  {
    WaitersFrame(s, e, kind);
    NotifyingFrame(s, e, kind);
    hide Step, Free;
  }

  lemma StepAttends(s: State, e: Event, kind: Kind)
    requires Enabled(s, e) && Attended(s, kind) && e != Spawn(false)
    ensures Attended(Step(s, e), kind)
  {
    StoredIsNeverOverwritten(s, e, kind);
    StepFrame(s, e, kind);
    hide Step, Enabled, Waits, Free;
    var t := Step(s, e);
    if t.Of(kind).raw.Some? && s.Of(kind).raw.Some? {
      if s.adapter == Notifying(kind) {
        assert e.Spawn? ==> Waits(t, kind, |s.threads|);
      } else {
        var i :| Waits(s, kind, i);
        assert Waits(t, kind, i);
      }
    }
  }

  // If the threads can be created, then in every interleaving a stored request has a thread that
  // waits for it, or is about to get one.
  lemma {:induction false} RequestsAreAttended(run: seq<Event>, k: nat, kind: Kind)
    requires Feasible(INIT, run) && k <= |run| && forall j :: 0 <= j < k ==> run[j] != Spawn(false)
    ensures Attended(StateAt(INIT, run, k), kind)
  {
    hide Step, Enabled;
    if k > 0 {
      RequestsAreAttended(run, k - 1, kind);
      Unfold(INIT, run, k - 1);
      StepAttends(StateAt(INIT, run, k - 1), run[k - 1], kind);
      hide Attended;
    }
  }

  // With payloads that are not null, that thread is the only one.
  ghost predicate OneThread(s: State, kind: Kind) {
    && (s.adapter == Notifying(kind) ==> s.Of(kind).raw.Some? && forall i :: !Waits(s, kind, i))
    && (forall i :: Waits(s, kind, i) ==> s.Of(kind).raw.Some?)
    && (forall i, j :: Waits(s, kind, i) && Waits(s, kind, j) ==> i == j)
  }

  lemma StepKeepsOneThread(s: State, e: Event, kind: Kind)
    requires Enabled(s, e) && OneThread(s, kind)
    requires e.Arrive? ==> e.data.Some?
    ensures OneThread(Step(s, e), kind)
  {
    StoredIsNeverOverwritten(s, e, kind);
    StepFrame(s, e, kind);
    if e.Arrive? && e.kind == kind && e.hasCallback && Free(s, kind) {
      StepStores(s, e, kind);
    }
    hide Step, Enabled, Free;
  }

  lemma StepStores(s: State, e: Event, kind: Kind)
    requires Enabled(s, e) && e.Arrive? && e.data.Some? && e.kind == kind && e.hasCallback && Free(s, kind)
    ensures Step(s, e).Of(kind).raw.Some? && s.Of(kind).raw.None?
  {
  }

  lemma {:induction false} OneThreadPerRequest(run: seq<Event>, k: nat, kind: Kind)
    requires Feasible(INIT, run) && k <= |run|
    requires forall j :: 0 <= j < k && run[j].Arrive? ==> run[j].data.Some?
    ensures OneThread(StateAt(INIT, run, k), kind)
  {
    hide Step, Enabled;
    if k > 0 {
      OneThreadPerRequest(run, k - 1, kind);
      Unfold(INIT, run, k - 1);
      StepKeepsOneThread(StateAt(INIT, run, k - 1), run[k - 1], kind);
      hide OneThread;
    }
  }

  /* ---------- exactly once ---------- */

  // Nothing is left to do until a request arrives.
  ghost predicate Quiet(s: State) {
    && s.adapter.Idle? && s.informed == |s.posts|
    && forall i :: 0 <= i < |s.threads| ==> s.threads[i].pc.Exited?
  }

  lemma {:induction false} NoneCarried(threads: seq<Thread>, k: nat, p: Payload)
    requires k <= |threads| && forall i :: 0 <= i < k ==> threads[i].pc.Exited?
    ensures Carried(threads, k, p) == 0
  {
    if k > 0 { NoneCarried(threads, k - 1, p); }
  }

  // The payloads that have been freed: those handed to the modem, ignored, or refused.
  ghost function Freed(s: State, p: Payload): nat
    requires s.informed <= |s.posts|
  {
    Posted(s.posts, s.informed, p) + Lost(s.dropped, p, Ignored) + Lost(s.dropped, p, Busy)
  }

  // When all is quiet, both sessions are free, and each payload that was accepted was handed to
  // the modem or ignored, as often as it was accepted.  Each was freed that often, and as often as
  // it was refused; and those not freed are just the arrivals for which no client had a callback.
  lemma ConsumedExactlyOnce(run: seq<Event>, k: nat, p: Payload)
    requires Feasible(INIT, run) && k <= |run| && forall j :: 0 <= j < k ==> run[j] != Spawn(false)
    requires Quiet(StateAt(INIT, run, k))
    ensures var s := StateAt(INIT, run, k);
      && s.supl.raw.None? && s.emergency.raw.None?
      && Arrivals(run, k, p, Accepted) == Posted(s.posts, s.informed, p) + Lost(s.dropped, p, Ignored)
      && Freed(s, p) == Arrivals(run, k, p, Accepted) + Arrivals(run, k, p, Refused)
      && AllArrived(s, p) - Freed(s, p) == Arrivals(run, k, p, Unheard)
  {
    var s := StateAt(INIT, run, k);
    FatesAreKept(run, k, p);
    CountsAddUp(run, k, p);
    RequestsAreAttended(run, k, Supl);
    RequestsAreAttended(run, k, Emergency);
    NoneCarried(s.threads, |s.threads|, p);
    hide Feasible, StateAt, Arrivals, Lost;
  }

  /* ---------- a thread that could not be created ---------- */

  ghost predicate Stuck(s: State, kind: Kind) {
    s.Of(kind).raw.Some? && s.adapter != Notifying(kind) && forall i :: !Waits(s, kind, i)
  }

  lemma StepStaysStuck(s: State, e: Event, kind: Kind)
    requires Enabled(s, e) && Stuck(s, kind)
    ensures Stuck(Step(s, e), kind) && Step(s, e).Of(kind).raw == s.Of(kind).raw
  {
    StoredIsNeverOverwritten(s, e, kind);
    StepFrame(s, e, kind);
    hide Step, Enabled, Waits;
  }

  // A session whose thread was never created keeps its request for good, whatever the user
  // responds, and every later request for that session is dropped; a stuck emergency session
  // blocks the ordinary one too.
  lemma {:induction false} StuckForGood(s: State, run: seq<Event>, k: nat, kind: Kind)
    requires Stuck(s, kind) && Feasible(s, run) && k <= |run|
    ensures Stuck(StateAt(s, run, k), kind) && StateAt(s, run, k).Of(kind).raw == s.Of(kind).raw
    ensures !Free(StateAt(s, run, k), kind) && (kind.Emergency? ==> !Free(StateAt(s, run, k), Supl))
  {
    if k > 0 {
      hide Step, Enabled;
      StuckForGood(s, run, k - 1, kind);
      Unfold(s, run, k - 1);
      StepStaysStuck(StateAt(s, run, k - 1), run[k - 1], kind);
    }
  }

  lemma StuckIffNotCreated(s: State, created: bool, kind: Kind)
    requires OneThread(s, kind) && s.adapter == Notifying(kind)
    ensures Stuck(OnSpawn(s, created), kind) <==> !created
  {
    if created {
      assert Waits(OnSpawn(s, created), kind, |s.threads|);
    } else {
      assert forall i :: Waits(OnSpawn(s, created), kind, i) ==> Waits(s, kind, i);
    }
  }

  /* ---------- responses ---------- */

  // A client has given this response, to the request that the session then held.
  ghost predicate GivenAt(init: State, run: seq<Event>, j: nat, kind: Kind, resp: Response)
    requires Feasible(init, run) && j < |run|
  {
    run[j].Respond? && run[j].known && run[j].resp == resp &&
    var x := StateAt(init, run, j).Of(kind); x.raw.Some? && x.reqId == run[j].id
  }

  // It was given among the steps from i up to k.
  ghost predicate Given(init: State, run: seq<Event>, i: nat, k: nat, kind: Kind, resp: Response)
    requires Feasible(init, run) && k <= |run|
  {
    exists j :: i <= j < k && GivenAt(init, run, j, kind, resp)
  }

  // A response that a session has is one that was given since i; an ordinary session is told to
  // ignore its request, too, once an emergency is accepted.
  ghost predicate SessionKnows(init: State, run: seq<Event>, i: nat, k: nat, kind: Kind)
    requires Feasible(init, run) && k <= |run|
  {
    var x := StateAt(init, run, k).Of(kind);
    x.respRecvd ==>
      || Given(init, run, i, k, kind, x.resp)
      || (kind.Supl? && x.resp == Ignore && Given(init, run, i, k, Emergency, Accept))
  }

  // The same for a response that the adapter is about to write.
  ghost predicate AdapterKnows(init: State, run: seq<Event>, i: nat, k: nat)
    requires Feasible(init, run) && k <= |run|
  {
    var s := StateAt(init, run, k);
    && (s.adapter.Checking? || s.adapter.Ignoring? ==>
          s.adapter.resp == Accept && Given(init, run, i, k, Emergency, Accept))
    && (s.adapter.Responding? ==> Given(init, run, i, k, s.adapter.kind, s.adapter.resp))
  }

  // One step: what is known to be given comes to include a response that a client gives now.
  lemma StepJustifies(s: State, e: Event, kind: Kind)
    requires Enabled(s, e)
    ensures var t := Step(s, e);
      && (t.Of(kind).respRecvd ==>
            || (s.Of(kind).respRecvd && t.Of(kind).resp == s.Of(kind).resp)
            || (s.adapter == Responding(kind, t.Of(kind).resp))
            || (s.adapter.Ignoring? && kind.Supl? && t.Of(kind).resp == Ignore))
      && (t.adapter.Checking? || t.adapter.Ignoring? ==>
            || ((s.adapter.Checking? || s.adapter.Ignoring?) && t.adapter.resp == s.adapter.resp)
            || (t.adapter.resp == Accept && e == Respond(true, s.emergency.reqId, Accept) && s.emergency.raw.Some?))
      && (t.adapter.Responding? ==>
            || t.adapter == s.adapter
            || ((s.adapter.Checking? || s.adapter.Ignoring?) && t.adapter == Responding(Emergency, s.adapter.resp))
            || (var x := s.Of(t.adapter.kind);
                e == Respond(true, x.reqId, t.adapter.resp) && x.raw.Some?))
  {
  }

  lemma RespondGives(run: seq<Event>, i: nat, k: nat, kind: Kind)
    requires Feasible(INIT, run) && i <= k < |run|
    ensures var x := StateAt(INIT, run, k).Of(kind);
      x.raw.Some? ==> forall resp :: run[k] == Respond(true, x.reqId, resp) ==> Given(INIT, run, i, k + 1, kind, resp)
    ensures forall resp :: Given(INIT, run, i, k, kind, resp) ==> Given(INIT, run, i, k + 1, kind, resp)
  {
    forall resp | run[k] == Respond(true, StateAt(INIT, run, k).Of(kind).reqId, resp)
      ensures StateAt(INIT, run, k).Of(kind).raw.Some? ==> GivenAt(INIT, run, k, kind, resp) {
    }
    hide GivenAt, StateAt;
  }

  lemma StepKeepsKnown(run: seq<Event>, i: nat, k: nat, kind: Kind)
    requires Feasible(INIT, run) && i <= k < |run| && AdapterKnows(INIT, run, i, k)
    ensures AdapterKnows(INIT, run, i, k + 1)
    ensures SessionKnows(INIT, run, i, k, kind) ==> SessionKnows(INIT, run, i, k + 1, kind)
  {
    hide Step, Enabled, Given, StateAt, Feasible;
    Unfold(INIT, run, k);
    StepJustifies(StateAt(INIT, run, k), run[k], kind);
    RespondGives(run, i, k, Supl);
    RespondGives(run, i, k, Emergency);
    RespondGives(run, i, k, kind);
    var t := StateAt(INIT, run, k + 1);
    if t.adapter.Responding? {
      RespondGives(run, i, k, t.adapter.kind);
    }
  }

  // In every interleaving, a thread that stops waiting for another reason than its time limit has
  // a response that a client gave, be it to this request of its session or to one before it.
  lemma {:induction false} ResponsesAreGiven(run: seq<Event>, k: nat, kind: Kind)
    requires Feasible(INIT, run) && k <= |run|
    ensures AdapterKnows(INIT, run, 0, k) && SessionKnows(INIT, run, 0, k, kind)
  {
    if k > 0 {
      ResponsesAreGiven(run, k - 1, kind);
      StepKeepsKnown(run, 0, k - 1, kind);
      hide AdapterKnows, SessionKnows;
    }
  }

  // So what is posted for a request that did not time out is its payload, with a response that
  // a client gave for this session.
  lemma AnswersAreGiven(run: seq<Event>, k: nat, i: nat)
    requires Feasible(INIT, run) && k < |run| && run[k] == Consume(i, false)
    ensures var (s, t) := (StateAt(INIT, run, k), StateAt(INIT, run, k + 1));
      && i < |s.threads| && i < |t.threads| && t.threads[i].pc.Left?
      && (t.threads[i].pc.carry.Some? ==>
            var (kind, a) := (s.threads[i].kind, t.threads[i].pc.carry.value);
            s.Of(kind).raw == Some(a.payload) && Given(INIT, run, 0, k, kind, a.resp))
  {
    Unfold(INIT, run, k);
    ResponsesAreGiven(run, k, StateAt(INIT, run, k).threads[i].kind);
    hide Given, StateAt, Feasible;
  }

  /* ---------- late responses ---------- */

  // A free session whose response flag is up: its next request will take that response.
  predicate Stale(s: State, kind: Kind) { s.Of(kind).raw.None? && s.Of(kind).respRecvd }

  // A session goes stale exactly when the adapter writes a response to a session that was taken
  // since it looked.
  lemma GoesStaleIff(s: State, e: Event, kind: Kind)
    requires Enabled(s, e) && !Stale(s, kind)
    ensures Stale(Step(s, e), kind) <==>
      && e.Write? && s.Of(kind).raw.None?
      && ((s.adapter.Ignoring? && kind.Supl?) || (s.adapter.Responding? && s.adapter.kind == kind))
  {
  }

  // A request of this session that is stored at i and still there at n.
  ghost predicate StaysStored(run: seq<Event>, i: nat, n: nat, kind: Kind, p: Payload)
    requires Feasible(INIT, run) && n <= |run|
  {
    && i < n && run[i] == Arrive(kind, Some(p), true) && Free(StateAt(INIT, run, i), kind)
    && forall j :: i < j <= n ==> StateAt(INIT, run, j).Of(kind).raw.Some?
  }

  lemma StoreStarts(s: State, kind: Kind, p: Payload)
    requires Enabled(s, Arrive(kind, Some(p), true)) && Free(s, kind)
    ensures var t := Step(s, Arrive(kind, Some(p), true));
      t.adapter == Notifying(kind) && t.Of(kind) == s.Of(kind).(raw := Some(p), reqId := s.counter + 1)
  {
  }

  lemma {:induction false} KnownSinceArrival(run: seq<Event>, i: nat, k: nat, kind: Kind, p: Payload)
    requires Feasible(INIT, run) && i < k <= |run| && StaysStored(run, i, k, kind, p)
    requires !Stale(StateAt(INIT, run, i), kind)
    ensures AdapterKnows(INIT, run, i + 1, k) && SessionKnows(INIT, run, i + 1, k, kind)
  {
    if i + 1 == k {
      hide Step, Enabled, Feasible, StateAt;
      Unfold(INIT, run, i);
      StoreStarts(StateAt(INIT, run, i), kind, p);
    } else {
      KnownSinceArrival(run, i, k - 1, kind, p);
      StepKeepsKnown(run, i + 1, k - 1, kind);
      hide AdapterKnows, SessionKnows, Stale;
    }
  }

  // The response that the session has, if any, was given after step i.
  ghost predicate Own(run: seq<Event>, i: nat, k: nat, kind: Kind)
    requires Feasible(INIT, run) && k <= |run|
  {
    SessionKnows(INIT, run, i + 1, k, kind)
  }

  // While a request is stored, each response its session has was given to this very request, or
  // is the ignoring of it for an emergency accepted since, exactly if the session was not stale
  // when the request arrived.
  lemma ResponsesAreOwnIff(run: seq<Event>, i: nat, n: nat, kind: Kind, p: Payload)
    requires Feasible(INIT, run) && i < n <= |run| && StaysStored(run, i, n, kind, p)
    ensures (forall k :: i < k <= n ==> Own(run, i, k, kind)) <==> !Stale(StateAt(INIT, run, i), kind)
  {
    hide Step, Enabled, Feasible, StateAt;
    if Stale(StateAt(INIT, run, i), kind) {
      Unfold(INIT, run, i);
      StoreStarts(StateAt(INIT, run, i), kind, p);
      assert !Own(run, i, i + 1, kind);
    } else {
      forall k | i < k <= n ensures Own(run, i, k, kind) {
        KnownSinceArrival(run, i, k, kind, p);
      }
    }
  }

  lemma TakesStored(s: State, t: nat)
    requires Enabled(s, Consume(t, false))
    ensures var (kind, u) := (s.threads[t].kind, Step(s, Consume(t, false)));
      var x := s.Of(kind);
      && x.respRecvd && t < |u.threads| && u.threads[t].pc ==
         Left(if x.raw.Some? && x.resp != Ignore then Some(Answer(x.raw.value, x.resp)) else None)
  {
  }

  // So without a stale session, what a thread takes in time is the response to its own request.
  lemma AnswerIsOwn(run: seq<Event>, i: nat, n: nat, t: nat, kind: Kind, p: Payload)
    requires Feasible(INIT, run) && i < n < |run| && StaysStored(run, i, n, kind, p)
    requires !Stale(StateAt(INIT, run, i), kind) && run[n] == Consume(t, false)
    ensures var (s, u) := (StateAt(INIT, run, n), StateAt(INIT, run, n + 1));
      && t < |s.threads| && t < |u.threads| && u.threads[t].pc.Left?
      && (s.threads[t].kind == kind && u.threads[t].pc.carry.Some? ==>
            Given(INIT, run, i + 1, n, kind, u.threads[t].pc.carry.value.resp))
  {
    hide Step, Feasible, StateAt, Given;
    KnownSinceArrival(run, i, n, kind, p);
    Unfold(INIT, run, n);
    TakesStored(StateAt(INIT, run, n), t);
  }

  lemma StepKeepsResponse(s: State, e: Event, kind: Kind)
    requires Enabled(s, e) && !e.Write? && s.Of(kind).raw.Some? && Step(s, e).Of(kind).raw.Some?
    ensures Step(s, e).Of(kind).resp == s.Of(kind).resp && Step(s, e).Of(kind).respRecvd == s.Of(kind).respRecvd
  {
  }

  // And with one, its request keeps the old response until a new one is written over it.
  lemma {:induction false} StaleResponseStays(run: seq<Event>, i: nat, n: nat, kind: Kind, p: Payload)
    requires Feasible(INIT, run) && i < n <= |run| && StaysStored(run, i, n, kind, p)
    requires Stale(StateAt(INIT, run, i), kind) && forall j :: i < j < n ==> !run[j].Write?
    ensures StateAt(INIT, run, n).Of(kind).respRecvd
    ensures StateAt(INIT, run, n).Of(kind).resp == StateAt(INIT, run, i).Of(kind).resp
  {
    hide Step, Enabled, Feasible, StateAt;
    Unfold(INIT, run, n - 1);
    if i + 1 == n {
      StoreStarts(StateAt(INIT, run, i), kind, p);
    } else {
      StaleResponseStays(run, i, n - 1, kind, p);
      StepKeepsResponse(StateAt(INIT, run, n - 1), run[n - 1], kind);
    }
  }

  const LATE: seq<Event> := [
    Arrive(Supl, Some(10), true), Spawn(true), Respond(true, 1, Accept), Block(0), Consume(0, true), Write,
    Clear(0), Post(0), Arrive(Supl, Some(20), true), Spawn(true), Consume(1, false)]

  // Where the first six of these leave things: the response has come too late.
  const TOO_LATE := State(
    Session(None, 1, Accept, true), EMPTY, 1, [Thread(Supl, Left(Some(Answer(10, NoResponse))))],
    Idle, [], 0, [10], [])

  lemma ResponseComesTooLate()
    ensures After(INIT, LATE, 6) == Some(TOO_LATE)
  {
    var stored := Session(Some(10), 1, Accept, false);
    var s1 := State(stored, EMPTY, 1, [], Notifying(Supl), [], 0, [10], []);
    var s2 := s1.(adapter := Idle, threads := [Thread(Supl, Spawned)]);
    var s3 := s2.(adapter := Responding(Supl, Accept));
    var s4 := s3.(threads := [Thread(Supl, Blocked)]);
    var s5 := s4.(supl := Session(None, 1, NoResponse, false), threads := TOO_LATE.threads);
    assert Step(INIT, LATE[0]) == s1;
    assert Step(s1, LATE[1]) == s2;
    assert Step(s2, LATE[2]) == s3;
    assert Step(s3, LATE[3]) == s4;
    assert Step(s4, LATE[4]) == s5;
    assert Step(s5, LATE[5]) == TOO_LATE;
    OneMore(INIT, LATE, 0, INIT, LATE[0]);
    OneMore(INIT, LATE, 1, s1, LATE[1]);
    OneMore(INIT, LATE, 2, s2, LATE[2]);
    OneMore(INIT, LATE, 3, s3, LATE[3]);
    OneMore(INIT, LATE, 4, s4, LATE[4]);
    OneMore(INIT, LATE, 5, s5, LATE[5]);
    hide After;
  }

  // The response to a request that has timed out is given to the next, which nobody responded to.
  lemma LateResponseAnswersNext()
    ensures var s := After(INIT, LATE, 11);
      && s.Some? && s.value.posts == [Answer(10, NoResponse)]
      && |s.value.threads| == 2 && s.value.threads[1].pc == Left(Some(Answer(20, Accept)))
  {
    hide After, Feasible;
    ResponseComesTooLate();
    var answer := Answer(10, NoResponse);
    var s7 := TOO_LATE.(supl := Session(None, 0, Accept, true), threads := [Thread(Supl, Cleared(Some(answer)))]);
    var s8 := s7.(threads := [Thread(Supl, Exited)], posts := [answer]);
    var s9 := s8.(supl := Session(Some(20), 2, Accept, true), counter := 2, adapter := Notifying(Supl),
                  arrived := [10, 20]);
    var s10 := s9.(adapter := Idle, threads := [Thread(Supl, Exited), Thread(Supl, Spawned)]);
    assert Step(TOO_LATE, LATE[6]) == s7;
    assert Step(s7, LATE[7]) == s8;
    assert Step(s8, LATE[8]) == s9;
    assert Step(s9, LATE[9]) == s10;
    OneMore(INIT, LATE, 6, TOO_LATE, LATE[6]);
    OneMore(INIT, LATE, 7, s7, LATE[7]);
    OneMore(INIT, LATE, 8, s8, LATE[8]);
    OneMore(INIT, LATE, 9, s9, LATE[9]);
    OneMore(INIT, LATE, 10, s10, LATE[10]);
  }

  /* ---------- ids ---------- */

  ghost predicate ClearsId(init: State, run: seq<Event>, j: nat, kind: Kind)
    requires Feasible(init, run) && j < |run|
  {
    run[j].Clear? && run[j].i < |StateAt(init, run, j).threads| &&
    StateAt(init, run, j).threads[run[j].i].kind == kind
  }

  ghost predicate IdCleared(init: State, run: seq<Event>, i: nat, k: nat, kind: Kind)
    requires Feasible(init, run) && k <= |run|
  {
    exists j :: i < j < k && ClearsId(init, run, j, kind)
  }

  lemma StepKeepsId(s: State, e: Event, kind: Kind)
    requires Enabled(s, e) && s.Of(kind).raw.Some?
    ensures Step(s, e).Of(kind).reqId ==
      if e.Clear? && s.threads[e.i].kind == kind then 0 else s.Of(kind).reqId
  {
  }

  lemma StoredWithId(s: State, kind: Kind, p: Payload)
    requires Enabled(s, Arrive(kind, Some(p), true)) && Free(s, kind)
    ensures Step(s, Arrive(kind, Some(p), true)).Of(kind).reqId == s.counter + 1
  {
  }

  // The user knows a request by the id it was stored with.  While it is stored, its session has
  // that id, exactly unless the thread of an earlier request has cleared it, and else none.
  lemma {:induction false} IdIsKeptIff(run: seq<Event>, i: nat, k: nat, kind: Kind, p: Payload)
    requires Feasible(INIT, run) && i < k <= |run| && run[i] == Arrive(kind, Some(p), true)
    requires Free(StateAt(INIT, run, i), kind)
    requires forall j :: i < j <= k ==> StateAt(INIT, run, j).Of(kind).raw.Some?
    ensures StateAt(INIT, run, k).Of(kind).reqId ==
      if IdCleared(INIT, run, i, k, kind) then 0 else StateAt(INIT, run, i).counter + 1
  {
    hide Feasible, Step, StateAt;
    Unfold(INIT, run, k - 1);
    var s := StateAt(INIT, run, k - 1);
    if i + 1 == k {
      StoredWithId(s, kind, p);
    } else {
      IdIsKeptIff(run, i, k - 1, kind, p);
      StepKeepsId(s, run[k - 1], kind);
      assert ClearsId(INIT, run, k - 1, kind) <==>
        run[k - 1].Clear? && run[k - 1].i < |s.threads| && s.threads[run[k - 1].i].kind == kind;
    }
  }

  // So a user who responds in time can be told that there is no such request.
  const EARLY: seq<Event> := [
    Arrive(Supl, Some(10), true), Spawn(true), Block(0), Consume(0, true),
    Arrive(Supl, Some(20), true), Clear(0), Spawn(true), Respond(true, 2, Accept)]

  lemma ClearedIdRefusesUser()
    ensures var (s, t) := (After(INIT, EARLY, 7), After(INIT, EARLY, 8));
      s.Some? && s.value.supl.raw == Some(20) && s.value.counter == 2 && s == t
  {
    assert After(INIT, EARLY, 0) == Some(INIT);
    hide After, Feasible;
    var answer := Answer(10, NoResponse);
    var s1 := State(Session(Some(10), 1, Accept, false), EMPTY, 1, [], Notifying(Supl), [], 0, [10], []);
    var s2 := s1.(adapter := Idle, threads := [Thread(Supl, Spawned)]);
    var s3 := s2.(threads := [Thread(Supl, Blocked)]);
    var s4 := s3.(supl := Session(None, 1, NoResponse, false), threads := [Thread(Supl, Left(Some(answer)))]);
    var s5 := s4.(supl := Session(Some(20), 2, NoResponse, false), counter := 2, adapter := Notifying(Supl),
                  arrived := [10, 20]);
    var s6 := s5.(supl := Session(Some(20), 0, NoResponse, false), threads := [Thread(Supl, Cleared(Some(answer)))]);
    var s7 := s6.(adapter := Idle, threads := s6.threads + [Thread(Supl, Spawned)]);
    assert Step(INIT, EARLY[0]) == s1;
    assert Step(s1, EARLY[1]) == s2;
    assert Step(s2, EARLY[2]) == s3;
    assert Step(s3, EARLY[3]) == s4;
    assert Step(s4, EARLY[4]) == s5;
    assert Step(s5, EARLY[5]) == s6;
    OneMore(INIT, EARLY, 0, INIT, EARLY[0]);
    OneMore(INIT, EARLY, 1, s1, EARLY[1]);
    OneMore(INIT, EARLY, 2, s2, EARLY[2]);
    OneMore(INIT, EARLY, 3, s3, EARLY[3]);
    OneMore(INIT, EARLY, 4, s4, EARLY[4]);
    OneMore(INIT, EARLY, 5, s5, EARLY[5]);
    OneMore(INIT, EARLY, 6, s6, EARLY[6]);
    OneMore(INIT, EARLY, 7, s7, EARLY[7]);
  }

  /* ---------- a response reaches its session ---------- */

  // A client responds to the request that this session holds.  Its id is looked for in the emergency
  // session first.
  ghost predicate RespondsTo(run: seq<Event>, j: nat, kind: Kind, resp: Response)
    requires Feasible(INIT, run) && j < |run|
  {
    var s := StateAt(INIT, run, j);
    && run[j] == Respond(true, s.Of(kind).reqId, resp) && s.Of(kind).raw.Some?
    && (kind.Supl? ==> s.emergency.raw.None? || s.emergency.reqId != s.supl.reqId)
  }

  // The adapter is on the way to write this response to this session.
  predicate Delivers(a: Adapter, kind: Kind, resp: Response) {
    match a
    case Checking(r) => kind.Emergency? && r == resp
    case Ignoring(r) => kind.Emergency? && r == resp
    case Responding(k, r) => k == kind && r == resp
    case _ => false
  }

  lemma RespondStarts(s: State, id: nat, resp: Response, kind: Kind)
    requires s.adapter.Idle? && s.Of(kind).raw.Some? && id == s.Of(kind).reqId
    requires kind.Supl? ==> s.emergency.raw.None? || s.emergency.reqId != s.supl.reqId
    ensures var t := Step(s, Respond(true, id, resp));
      Delivers(t.adapter, kind, resp) && (t.adapter.Checking? <==> kind.Emergency? && resp == Accept)
  {
  }

  // Only writes move the adapter then, and the last one is that of the response.
  lemma StepDelivers(s: State, e: Event, kind: Kind, resp: Response)
    requires Enabled(s, e) && Delivers(s.adapter, kind, resp)
    ensures !e.Write? ==> Step(s, e).adapter == s.adapter
    ensures Step(s, e).adapter.Idle? ==>
      e.Write? && Step(s, e) == s.(adapter := Idle).With(kind, s.Of(kind).(resp := resp, respRecvd := true))
    ensures !Step(s, e).adapter.Idle? ==> Delivers(Step(s, e).adapter, kind, resp)
  {
  }

  lemma {:induction false} StillDelivers(run: seq<Event>, j: nat, l: nat, kind: Kind, resp: Response)
    requires Feasible(INIT, run) && j < l <= |run| && RespondsTo(run, j, kind, resp)
    requires forall i :: j < i <= l ==> !StateAt(INIT, run, i).adapter.Idle?
    ensures Delivers(StateAt(INIT, run, l).adapter, kind, resp)
  {
    hide Step, Feasible, StateAt;
    Unfold(INIT, run, l - 1);
    if j + 1 == l {
      RespondStarts(StateAt(INIT, run, j), run[j].id, resp, kind);
    } else {
      StillDelivers(run, j, l - 1, kind, resp);
      StepDelivers(StateAt(INIT, run, l - 1), run[l - 1], kind, resp);
    }
  }

  // In every interleaving, a response that matches a stored request has been written to its
  // session by the time the adapter is done with it; and that is a write like any other.
  lemma ResponseIsWritten(run: seq<Event>, j: nat, l: nat, kind: Kind, resp: Response)
    requires Feasible(INIT, run) && j < l < |run| && RespondsTo(run, j, kind, resp)
    requires forall i :: j < i <= l ==> !StateAt(INIT, run, i).adapter.Idle?
    requires StateAt(INIT, run, l + 1).adapter.Idle?
    ensures var (s, t) := (StateAt(INIT, run, l), StateAt(INIT, run, l + 1));
      run[l].Write? && t == s.(adapter := Idle).With(kind, s.Of(kind).(resp := resp, respRecvd := true))
  {
    hide Step, Feasible, StateAt;
    Unfold(INIT, run, l);
    StillDelivers(run, j, l, kind, resp);
    StepDelivers(StateAt(INIT, run, l), run[l], kind, resp);
  }

  lemma {:induction false} AdapterWaits(run: seq<Event>, i: nat, k: nat)
    requires Feasible(INIT, run) && i <= k <= |run|
    requires exists kind, resp :: Delivers(StateAt(INIT, run, i).adapter, kind, resp)
    requires forall j :: i <= j < k ==> !run[j].Write?
    ensures StateAt(INIT, run, k).adapter == StateAt(INIT, run, i).adapter
  {
    hide Step, Feasible, StateAt;
    if i < k {
      var kind, resp :| Delivers(StateAt(INIT, run, i).adapter, kind, resp);
      AdapterWaits(run, i, k - 1);
      Unfold(INIT, run, k - 1);
      StepDelivers(StateAt(INIT, run, k - 1), run[k - 1], kind, resp);
    }
  }

  lemma WriteLooks(s: State, resp: Response)
    requires s.adapter == Checking(resp)
    ensures Step(s, Write) ==
      s.(adapter := if s.supl.raw.Some? then Ignoring(resp) else Responding(Emergency, resp))
  {
  }

  lemma WriteIgnores(s: State, resp: Response)
    requires s.adapter == Ignoring(resp)
    ensures var t := Step(s, Write);
      && t.supl == s.supl.(resp := Ignore, respRecvd := true) && t.emergency == s.emergency
      && t.adapter == Responding(Emergency, resp)
  {
  }

  // When an emergency is accepted, the adapter first looks at the ordinary session, at m.  If that
  // holds a request then, the next write tells it to ignore it; and if not, that is the response.
  lemma AcceptIgnoresOrdinary(run: seq<Event>, j: nat, m: nat, n: nat)
    requires Feasible(INIT, run) && j < m < n < |run| && RespondsTo(run, j, Emergency, Accept)
    requires run[m].Write? && run[n].Write? && forall i :: j < i < n && i != m ==> !run[i].Write?
    ensures var (s, t) := (StateAt(INIT, run, n), StateAt(INIT, run, n + 1));
      if StateAt(INIT, run, m).supl.raw.Some? then
        t.supl == s.supl.(resp := Ignore, respRecvd := true) && t.emergency == s.emergency && !t.adapter.Idle?
      else
        t.emergency == s.emergency.(resp := Accept, respRecvd := true) && t.supl == s.supl && t.adapter.Idle?
  {
    hide Step, Feasible, StateAt;
    Unfold(INIT, run, j);
    RespondStarts(StateAt(INIT, run, j), run[j].id, Accept, Emergency);
    AdapterWaits(run, j + 1, m);
    Unfold(INIT, run, m);
    WriteLooks(StateAt(INIT, run, m), Accept);
    assert Delivers(StateAt(INIT, run, m + 1).adapter, Emergency, Accept);
    AdapterWaits(run, m + 1, n);
    Unfold(INIT, run, n);
    if StateAt(INIT, run, m).supl.raw.Some? {
      WriteIgnores(StateAt(INIT, run, n), Accept);
    } else {
      WriteAnswers(StateAt(INIT, run, n), Emergency, Accept);
    }
  }

  lemma WriteAnswers(s: State, kind: Kind, resp: Response)
    requires s.adapter == Responding(kind, resp)
    ensures Step(s, Write) == s.(adapter := Idle).With(kind, s.Of(kind).(resp := resp, respRecvd := true))
  {
  }

  // A response that no stored request matches does nothing, and neither does a stranger's.
  lemma UnmatchedResponseIsVoid(s: State, known: bool, id: nat, resp: Response)
    requires s.adapter.Idle?
    ensures Step(s, Respond(known, id, resp)) == s <==>
      !known || forall kind: Kind :: s.Of(kind).raw.Some? ==> s.Of(kind).reqId != id
  {
    assert s.Of(Supl) == s.supl && s.Of(Emergency) == s.emergency;
  }

  /* ---------- and the answer reaches the modem ---------- */

  // At its time limit, a thread answers that there was no response, whatever had been written.
  lemma TimeoutIsNoResponse(s: State, i: nat)
    requires Enabled(s, Consume(i, true))
    ensures var (x, t) := (s.Of(s.threads[i].kind), Step(s, Consume(i, true)));
      && i < |t.threads| && t.threads[i].pc ==
           Left(if x.raw.Some? then Some(Answer(x.raw.value, NoResponse)) else None)
      && !t.Of(s.threads[i].kind).respRecvd && t.dropped == s.dropped
  {
  }

  predicate Carries(t: Thread, carry: Option<Answer>) { (t.pc.Left? || t.pc.Cleared?) && t.pc.carry == carry }

  lemma StepCarries(s: State, e: Event, i: nat, carry: Option<Answer>)
    requires Enabled(s, e) && i < |s.threads| && Carries(s.threads[i], carry)
    ensures i < |Step(s, e).threads|
    ensures e != Post(i) ==> Carries(Step(s, e).threads[i], carry)
    ensures e == Post(i) ==> Step(s, e).posts == s.posts + (if carry.Some? then [carry.value] else [])
    ensures !e.Post? ==> Step(s, e).posts == s.posts
  {
  }

  lemma {:induction false} StillCarries(run: seq<Event>, k: nat, l: nat, i: nat, carry: Option<Answer>)
    requires Feasible(INIT, run) && k <= l <= |run|
    requires i < |StateAt(INIT, run, k).threads| && Carries(StateAt(INIT, run, k).threads[i], carry)
    requires forall j :: k <= j < l ==> run[j] != Post(i)
    ensures i < |StateAt(INIT, run, l).threads| && Carries(StateAt(INIT, run, l).threads[i], carry)
  {
    hide Step, Feasible, StateAt, Carries;
    if k < l {
      StillCarries(run, k, l - 1, i, carry);
      Unfold(INIT, run, l - 1);
      StepCarries(StateAt(INIT, run, l - 1), run[l - 1], i, carry);
    }
  }

  // In every interleaving, what a thread has taken is what it posts: the same payload with the same
  // response, once; and a thread that has taken nothing posts nothing.
  lemma TakenIsPosted(run: seq<Event>, k: nat, l: nat, i: nat, timedOut: bool)
    requires Feasible(INIT, run) && k < l < |run| && run[k] == Consume(i, timedOut) && run[l] == Post(i)
    requires forall j :: k < j < l ==> run[j] != Post(i)
    ensures var (s, t) := (StateAt(INIT, run, k + 1), StateAt(INIT, run, l));
      && i < |s.threads| && s.threads[i].pc.Left?
      && StateAt(INIT, run, l + 1).posts ==
           t.posts + (if s.threads[i].pc.carry.Some? then [s.threads[i].pc.carry.value] else [])
  {
    hide Step, Feasible, StateAt;
    Unfold(INIT, run, k);
    ConsumeLeaves(StateAt(INIT, run, k), i, timedOut);
    var carry := StateAt(INIT, run, k + 1).threads[i].pc.carry;
    StillCarries(run, k + 1, l, i, carry);
    Unfold(INIT, run, l);
    StepCarries(StateAt(INIT, run, l), run[l], i, carry);
  }

  lemma ConsumeLeaves(s: State, i: nat, timedOut: bool)
    requires Enabled(s, Consume(i, timedOut))
    ensures var t := Step(s, Consume(i, timedOut)); i < |t.threads| && t.threads[i].pc.Left?
  {
  }

  ghost function Informs(run: seq<Event>, k: nat): nat
    requires k <= |run|
  {
    if k == 0 then 0 else Informs(run, k - 1) + if run[k - 1].Inform? then 1 else 0
  }

  lemma StepInforms(s: State, e: Event)
    requires Enabled(s, e)
    ensures var t := Step(s, e);
      && t.informed == s.informed + (if e.Inform? then 1 else 0)
      && s.posts <= t.posts && (e.Inform? ==> s.informed < |s.posts|)
  {
  }

  // In every interleaving, the answers are handed to the modem one by one, in the order in which they
  // were posted: how many have been is how often the adapter has done it, and none is taken back.
  lemma {:induction false} AnswersGoInOrder(run: seq<Event>, i: nat, k: nat)
    requires Feasible(INIT, run) && i <= k <= |run|
    ensures StateAt(INIT, run, k).informed == Informs(run, k) <= |StateAt(INIT, run, k).posts|
    ensures StateAt(INIT, run, i).posts <= StateAt(INIT, run, k).posts
    decreases k
  {
    hide Step, Enabled, Feasible;
    if k > 0 {
      if i < k { AnswersGoInOrder(run, i, k - 1); } else { AnswersGoInOrder(run, k - 1, k - 1); }
      Unfold(INIT, run, k - 1);
      StepInforms(StateAt(INIT, run, k - 1), run[k - 1]);
    }
  }

  // Something is left to be done, by the adapter or a thread, exactly while it is not all quiet: no
  // thread waits for something that cannot come.
  lemma ProgressIff(s: State)
    requires s.informed <= |s.posts|
    ensures (exists e: Event :: !e.Arrive? && !e.Respond? && Enabled(s, e)) <==> !Quiet(s)
  {
    if !Quiet(s) {
      if s.adapter.Notifying? {
        assert Enabled(s, Spawn(true));
      } else if !s.adapter.Idle? {
        assert Enabled(s, Write);
      } else if s.informed < |s.posts| {
        assert Enabled(s, Inform);
      } else {
        var i :| 0 <= i < |s.threads| && !s.threads[i].pc.Exited?;
        assert
          || Enabled(s, Block(i)) || Enabled(s, Consume(i, false)) || Enabled(s, Consume(i, true))
          || Enabled(s, Clear(i)) || Enabled(s, Post(i));
      }
    }
  }

  /* ---------- the source's object ---------- */

  // Each method is one step: what runs between two points where another thread may come in.
  class NiAdapter {
    var supl: Session
    var emergency: Session
    var reqIdCounter: nat
    var threads: seq<Thread>
    var adapter: Adapter
    var posts: seq<Answer>
    var informed: nat
    ghost var arrived: seq<Payload>
    ghost var dropped: seq<Drop>

    ghost function View(): State
      reads this
    {
      State(supl, emergency, reqIdCounter, threads, adapter, posts, informed, arrived, dropped)
    }

    constructor ()
      ensures View() == INIT
    {
      supl, emergency, reqIdCounter, threads, adapter := EMPTY, EMPTY, 0, [], Idle;
      posts, informed, arrived, dropped := [], 0, [], [];
    }

    ghost method Lose(data: Option<Payload>, why: Reason)
      modifies this`dropped
      ensures View() == Gone(old(View()), data, why)
    {
      if data.Some? {
        dropped := dropped + [Drop(data.value, why)];
      }
    }

    method RequestNiNotify(kind: Kind, data: Option<Payload>, hasCallback: bool)
      requires adapter.Idle?
      modifies this
      ensures View() == Step(old(View()), Arrive(kind, data, hasCallback))
    {
      if data.Some? {
        arrived := arrived + [data.value];
      }
      if !hasCallback {
        Lose(data, NoCallback);
        return;
      }
      if kind.Emergency? {
        if emergency.raw.Some? {
          Lose(data, Busy);
        } else {
          reqIdCounter := reqIdCounter + 1;
          emergency := emergency.(raw := data, reqId := reqIdCounter);
          adapter := Notifying(Emergency);
        }
      } else if supl.raw.Some? || emergency.raw.Some? {
        Lose(data, Busy);
      } else {
        reqIdCounter := reqIdCounter + 1;
        supl := supl.(raw := data, reqId := reqIdCounter);
        adapter := Notifying(Supl);
      }
    }

    method CreateThread(created: bool)
      requires adapter.Notifying?
      modifies this`threads, this`adapter
      ensures View() == Step(old(View()), Spawn(created))
    {
      if created {
        threads := threads + [Thread(adapter.kind, Spawned)];
      }
      adapter := Idle;
    }

    method GnssNiResponse(known: bool, id: nat, resp: Response) returns (found: bool)
      requires adapter.Idle?
      modifies this`adapter
      ensures View() == Step(old(View()), Respond(known, id, resp)) && (found <==> !adapter.Idle?)
    {
      found := false;
      if known {
        if id == emergency.reqId && emergency.raw.Some? {
          found := true;
          adapter := if resp == Accept then Checking(resp) else Responding(Emergency, resp);
        } else if id == supl.reqId && supl.raw.Some? {
          found := true;
          adapter := Responding(Supl, resp);
        }
      }
    }

    // Under the session's lock, but for the look at the ordinary session.
    method WriteResponse()
      requires !adapter.Idle? && !adapter.Notifying?
      modifies this`adapter, this`supl, this`emergency
      ensures View() == Step(old(View()), Write)
    {
      match adapter {
        case Checking(resp) => adapter := if supl.raw.Some? then Ignoring(resp) else Responding(Emergency, resp);
        case Ignoring(resp) =>
          supl := supl.(resp := Ignore, respRecvd := true);
          adapter := Responding(Emergency, resp);
        case Responding(kind, resp) =>
          if kind.Supl? {
            supl := supl.(resp := resp, respRecvd := true);
          } else {
            emergency := emergency.(resp := resp, respRecvd := true);
          }
          adapter := Idle;
      }
    }

    method InformNiResponse() returns (answer: Answer)
      requires adapter.Idle? && informed < |posts|
      modifies this`informed
      ensures View() == Step(old(View()), Inform) && answer == posts[old(informed)]
    {
      answer, informed := posts[informed], informed + 1;
    }

    method ThreadWaits(i: nat)
      requires Enabled(View(), Block(i))
      modifies this`threads
      ensures View() == Step(old(View()), Block(i))
    {
      threads := threads[i := threads[i].(pc := Blocked)];
    }

    // From the end of the wait to the release of the lock.
    method ThreadTakes(i: nat, timedOut: bool)
      requires Enabled(View(), Consume(i, timedOut))
      modifies this
      ensures View() == Step(old(View()), Consume(i, timedOut))
    {
      var kind := threads[i].kind;
      var x := if kind.Supl? then supl else emergency;
      if timedOut {
        x := x.(resp := NoResponse);
      }
      x := x.(respRecvd := false);
      var carry: Option<Answer> := None;
      if x.raw.Some? {
        if x.resp != Ignore {
          carry := Some(Answer(x.raw.value, x.resp));
        } else {
          Lose(x.raw, Ignored);
        }
        x := x.(raw := None);
      }
      if kind.Supl? {
        supl := x;
      } else {
        emergency := x;
      }
      threads := threads[i := threads[i].(pc := Left(carry))];
    }

    method ThreadClearsId(i: nat)
      requires Enabled(View(), Clear(i))
      modifies this`threads, this`supl, this`emergency
      ensures View() == Step(old(View()), Clear(i))
    {
      if threads[i].kind.Supl? {
        supl := supl.(reqId := 0);
      } else {
        emergency := emergency.(reqId := 0);
      }
      threads := threads[i := threads[i].(pc := Cleared(threads[i].pc.carry))];
    }

    method ThreadPosts(i: nat)
      requires Enabled(View(), Post(i))
      modifies this`threads, this`posts
      ensures View() == Step(old(View()), Post(i))
    {
      var carry := threads[i].pc.carry;
      if carry.Some? {
        posts := posts + [carry.value];
      }
      threads := threads[i := threads[i].(pc := Exited)];
    }
  }
}
