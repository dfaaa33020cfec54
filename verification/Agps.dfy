/**
 The AGPS data-connection protocol of gps/gnss/Agps.cpp.

 `Step` is the specification of one event handled by one state machine, together with the
 outgoing calls the event makes, in order.  The class `AgpsStateMachine` is the source's object:
 it updates its fields and its subscriber list in place and is proved to follow `Step`.
 What every run of `Step` keeps is proved in the modules `AgpsRuns` and `DsRuns`.
 */
module Agps {

  // The base machine talks to the framework; the DS machine overrides two virtual methods.
  datatype Kind = Base | Ds

  datatype AgpsState = Released | Pending | Acquired | Releasing

  datatype Subscriber = Subscriber(handle: int, waitForClose: bool, inactive: bool)

  datatype Event =
    | Subscribe(handle: int, waitForClose: bool)
    | Unsubscribe(handle: int)
    | Granted
    | ConnReleased
    | Denied
    | RetryTimer    // the DS retry timer fires
    | ModemRestart  // dropAllSubscribers, on modem SSR

  // What the data-services client answers when asked to start a call.
  datatype StartResult = Success | EngineBusy | Unsupported | OtherError

  // The environment during one event: which DS client functions are registered, and the answer.
  datatype Env = Env(startFn: bool, stopFn: bool, start: StartResult)

  datatype Action =
    | RequestConn
    | ReleaseConn
    | OpenStatus(handle: int, granted: bool)
    | CloseStatus(handle: int, known: bool)
    | StartDataCall
    | StopDataCall
    | CloseDataCall
    | StartRetryTimer
    | PostSupl(handle: int)    // fall back: request a plain SUPL connection for this handle
    | PostSuplEs(handle: int)  // retry: request the emergency connection again for this handle

  datatype Target = ForAll | ForInactive | ForActive

  datatype Machine = Machine(kind: Kind, state: AgpsState, subs: seq<Subscriber>, retries: int)

  datatype Effect = Effect(m: Machine, out: seq<Action>)

  const MAX_START_DATA_CALL_RETRIES := 4

  function Init(kind: Kind): Machine { Machine(kind, Released, [], 0) }

  /* ---------- the subscriber list ---------- */

  predicate Has(subs: seq<Subscriber>, h: int) { exists s :: s in subs && s.handle == h }

  predicate AnyActive(subs: seq<Subscriber>) { exists s :: s in subs && !s.inactive }

  predicate Hit(s: Subscriber, t: Target) { t.ForAll? || (t.ForInactive? == s.inactive) }

  // What a notification round leaves of the first k subscribers, in list order.
  function Kept(subs: seq<Subscriber>, k: nat, t: Target, delete: bool): seq<Subscriber>
    requires k <= |subs|
  {
    if k == 0 then []
    else Kept(subs, k - 1, t, delete) + if delete && Hit(subs[k - 1], t) then [] else [subs[k - 1]]
  }

  // The first k subscribers less those with this handle.
  function Without(subs: seq<Subscriber>, k: nat, h: int): seq<Subscriber>
    requires k <= |subs|
  {
    if k == 0 then [] else Without(subs, k - 1, h) + if subs[k - 1].handle == h then [] else [subs[k - 1]]
  }

  // The index of the first subscriber with this handle, or |subs|.
  function Find(subs: seq<Subscriber>, h: int): (i: nat)
    ensures i <= |subs|
    ensures i < |subs| ==> subs[i].handle == h
    ensures forall j :: 0 <= j < i ==> subs[j].handle != h
  {
    FindFrom(subs, 0, h)
  }

  function FindFrom(subs: seq<Subscriber>, i: nat, h: int): (r: nat)
    requires i <= |subs|
    ensures i <= r <= |subs|
    ensures r < |subs| ==> subs[r].handle == h
    ensures forall j :: i <= j < r ==> subs[j].handle != h
    decreases |subs| - i
  {
    if i == |subs| || subs[i].handle == h then i else FindFrom(subs, i + 1, h)
  }

  // The index of the first active subscriber, or |subs|.
  function FirstActive(subs: seq<Subscriber>): (i: nat)
    ensures i <= |subs|
    ensures i < |subs| ==> !subs[i].inactive
    ensures forall j :: 0 <= j < i ==> subs[j].inactive
  {
    FirstActiveFrom(subs, 0)
  }

  function FirstActiveFrom(subs: seq<Subscriber>, i: nat): (r: nat)
    requires i <= |subs|
    ensures i <= r <= |subs|
    ensures r < |subs| ==> !subs[r].inactive
    ensures forall j :: i <= j < r ==> subs[j].inactive
    decreases |subs| - i
  {
    if i == |subs| || !subs[i].inactive then i else FirstActiveFrom(subs, i + 1)
  }

  function Add(subs: seq<Subscriber>, s: Subscriber): seq<Subscriber> {
    if Has(subs, s.handle) then subs else subs + [s]
  }

  /* ---------- outgoing calls ---------- */

  // notifyEventToSubscriber: what one subscriber is told about an event.
  function Notice(kind: Kind, e: Event, h: int): seq<Action> {
    match e
    case Granted => [OpenStatus(h, true)]
    case Denied => if kind.Ds? then [PostSupl(h)] else [OpenStatus(h, false)]
    case Unsubscribe(_) => [CloseStatus(h, true)]
    case ConnReleased => (if kind.Ds? then [CloseDataCall] else []) + [CloseStatus(h, true)]
    case _ => []
  }

  // What the reached ones among the first k subscribers are told.
  function Notices(kind: Kind, e: Event, subs: seq<Subscriber>, k: nat, t: Target): seq<Action>
    requires k <= |subs|
  {
    if k == 0 then [] else
      Notices(kind, e, subs, k - 1, t) +
      if Hit(subs[k - 1], t) then Notice(kind, e, subs[k - 1].handle) else []
  }

  // A DS machine resets its retry counter whenever it falls back to plain SUPL.
  predicate Resets(kind: Kind, e: Event) { kind.Ds? && e.Denied? }

  function RetriesOver(kind: Kind, r: int, e: Event, subs: seq<Subscriber>, k: nat, t: Target): int
    requires k <= |subs|
  {
    if k == 0 then r
    else if Resets(kind, e) && Hit(subs[k - 1], t) then 0
    else RetriesOver(kind, r, e, subs, k - 1, t)
  }

  function NotifyOne(m: Machine, e: Event, h: int): Effect {
    Effect(if Resets(m.kind, e) then m.(retries := 0) else m, Notice(m.kind, e, h))
  }

  // Walking a list in place, one element on: it either joins the kept prefix or is erased.
  lemma OneOn(list: seq<Subscriber>, i: nat, kept: seq<Subscriber>, all: seq<Subscriber>, k: nat)
    requires k < |all| && i == |kept| && list == kept + all[k..]
    ensures i < |list| && list[i] == all[k]
    ensures list == (kept + [all[k]]) + all[k + 1..]
    ensures list[..i] + list[i + 1..] == kept + all[k + 1..]
  {
  }

  function NotifyAll(m: Machine, e: Event, t: Target, delete: bool): Effect {
    Effect(m.(subs := Kept(m.subs, |m.subs|, t, delete),
              retries := RetriesOver(m.kind, m.retries, e, m.subs, |m.subs|, t)),
           Notices(m.kind, e, m.subs, |m.subs|, t))
  }

  // requestOrReleaseDataConn: its effect, and whether it returned zero.
  function Conn(m: Machine, request: bool, env: Env): (Effect, bool) {
    match m.kind
    case Base => (Effect(m, [if request then RequestConn else ReleaseConn]), true)
    case Ds =>
      if !request && env.stopFn then (Effect(m, [StopDataCall]), true)
      else
        var i := FirstActive(m.subs);
        if i == |m.subs| then (Effect(m, []), false)
        else if !env.startFn then (NotifyOne(m, Denied, m.subs[i].handle), false)
        else
          var r := StartCall(m, m.subs[i].handle, env.start);
          (Effect(r.m, [StartDataCall] + r.out), env.start.Success?)
  }

  // The answer to a started data call: retry a busy engine, or fall back to plain SUPL.
  function StartCall(m: Machine, h: int, answer: StartResult): Effect {
    match answer
    case EngineBusy =>
      var m1 := m.(retries := m.retries + 1);
      if m1.retries > MAX_START_DATA_CALL_RETRIES then NotifyOne(m1, Denied, h)
      else Effect(m1, [StartRetryTimer])
    case Unsupported => NotifyOne(m, Denied, h)
    case Success => Effect(m, [])
    case OtherError => Effect(m, [])
  }

  /* ---------- the event handlers ---------- */

  function OnSubscribe(m: Machine, h: int, wait: bool, env: Env): Effect {
    var m1 := m.(subs := Add(m.subs, Subscriber(h, wait, false)));
    match m.state
    case Released =>
      var (eff, ok) := Conn(m1, true, env);
      Effect(if ok then eff.m.(state := Pending) else eff.m, eff.out)
    case Acquired => Effect(m1, Notice(m.kind, Granted, h))
    case _ => Effect(m1, [])
  }

  // A subscriber that waits for the close is parked as inactive; any other is told and dropped.
  function Depart(m: Machine, i: nat): Effect
    requires i < |m.subs|
  {
    var s := m.subs[i];
    if s.waitForClose then Effect(m.(subs := m.subs[i := s.(inactive := true)]), [])
    else Effect(m.(subs := Without(m.subs, |m.subs|, s.handle)), Notice(m.kind, Unsubscribe(s.handle), s.handle))
  }

  // With nobody active left, the connection is released.
  function Wind(m: Machine, env: Env): Effect {
    if m.state == Releasing then Effect(if m.subs == [] then m.(state := Released) else m, [])
    else if m.subs == [] then Conn(m.(state := Released), false, env).0
    else if !AnyActive(m.subs) then Conn(m.(state := Releasing), false, env).0
    else Effect(m, [])
  }

  // releaseATL answers by itself for a handle that no subscriber has.
  function OnUnsubscribe(m: Machine, h: int, env: Env): Effect {
    var i := Find(m.subs, h);
    if i == |m.subs| then Effect(m, [CloseStatus(h, false)])
    else if m.state == Released then NotifyOne(m, Unsubscribe(h), h)
    else
      var d := Depart(m, i);
      var w := Wind(d.m, env);
      Effect(w.m, d.out + w.out)
  }

  function OnGranted(m: Machine): Effect {
    if m.state == Pending then NotifyAll(m.(state := Acquired), Granted, ForActive, false)
    else Effect(m, [])
  }

  // RELEASED and DENIED are handled alike while the machine is releasing.
  function OnClosed(m: Machine, env: Env): Effect {
    var n := NotifyAll(m, ConnReleased, ForInactive, true);
    if AnyActive(n.m.subs) then
      var (eff, _) := Conn(n.m.(state := Pending), true, env);
      Effect(eff.m, n.out + eff.out)
    else Effect(n.m.(state := Released), n.out)
  }

  function OnReleased(m: Machine, env: Env): Effect {
    match m.state
    case Acquired => NotifyAll(m.(state := Released), ConnReleased, ForAll, true)
    case Releasing => OnClosed(m, env)
    case _ => Effect(m, [])
  }

  function OnDenied(m: Machine, env: Env): Effect {
    match m.state
    case Pending => NotifyAll(m.(state := Released), Denied, ForAll, true)
    case Releasing => OnClosed(m, env)
    case _ => Effect(m, [])
  }

  function OnRetryTimer(m: Machine): Effect {
    var i := FirstActive(m.subs);
    Effect(m, if m.kind.Base? || i == |m.subs| then [] else [PostSuplEs(m.subs[i].handle)])
  }

  function Step(m: Machine, e: Event, env: Env): Effect {
    match e
    case Subscribe(h, wait) => OnSubscribe(m, h, wait, env)
    case Unsubscribe(h) => OnUnsubscribe(m, h, env)
    case Granted => OnGranted(m)
    case ConnReleased =>
      if m.kind.Ds? && m.state == Pending then OnDenied(m, env) else OnReleased(m, env)
    case Denied => OnDenied(m, env)
    case RetryTimer => OnRetryTimer(m)
    case ModemRestart => Effect(m.(subs := []), [])
  }

  /* ---------- the source's object ---------- */

  class AgpsStateMachine {
    const kind: Kind
    var state: AgpsState
    var subs: seq<Subscriber>
    var retries: int
    ghost var log: seq<Action>

    ghost function View(): Machine reads this { Machine(kind, state, subs, retries) }

    constructor (kind: Kind)
      ensures View() == Init(kind) && log == []
    {
      this.kind := kind;
      state, subs, retries, log := Released, [], 0, [];
    }

    method GetSubscriber(h: int) returns (i: nat)
      ensures i == Find(subs, h)
    {
      i := 0;
      while i < |subs| && subs[i].handle != h
        invariant i <= |subs|
        invariant forall j :: 0 <= j < i ==> subs[j].handle != h
      {
        i := i + 1;
      }
    }

    method GetFirstActive() returns (i: nat)
      ensures i == FirstActive(subs)
    {
      i := 0;
      while i < |subs| && subs[i].inactive
        invariant i <= |subs|
        invariant forall j :: 0 <= j < i ==> subs[j].inactive
      {
        i := i + 1;
      }
    }

    method AnyActiveSubscribers() returns (b: bool)
      ensures b == AnyActive(subs)
    {
      var i := 0;
      while i < |subs|
        invariant i <= |subs|
        invariant forall j :: 0 <= j < i ==> subs[j].inactive
      {
        if !subs[i].inactive {
          return true;
        }
        i := i + 1;
      }
      b := false;
    }

    method AddSubscriber(s: Subscriber)
      modifies this`subs
      ensures subs == Add(old(subs), s)
    {
      var i := 0;
      while i < |subs|
        invariant i <= |subs| && subs == old(subs)
        invariant forall j :: 0 <= j < i ==> subs[j].handle != s.handle
      {
        if subs[i].handle == s.handle {
          return;
        }
        i := i + 1;
      }
      subs := subs + [s];
    }

    method DeleteSubscriber(h: int)
      modifies this`subs
      ensures subs == Without(old(subs), |old(subs)|, h)
    {
      var i, list := 0, subs;
      ghost var all, k, kept := subs, 0, [];
      while i < |list|
        invariant k <= |all| && i == |kept| && list == kept + all[k..]
        invariant kept == Without(all, k, h)
        decreases |all| - k
      {
        OneOn(list, i, kept, all, k);
        if list[i].handle == h {
          list := list[..i] + list[i + 1..];
        } else {
          i, kept := i + 1, kept + [list[i]];
        }
        k := k + 1;
      }
      assert list == kept;
      subs := list;
    }

    // Virtual: the base and the DS machine tell their subscribers different things.
    method NotifyEventToSubscriber(e: Event, h: int) returns (ghost out: seq<Action>)
      modifies this`retries
      ensures out == Notice(kind, e, h)
      ensures retries == if Resets(kind, e) then 0 else old(retries)
    {
      out := [];
      match e {
        case Granted => out := [OpenStatus(h, true)];
        case Denied =>
          if kind.Ds? {
            retries := 0;
            out := [PostSupl(h)];
          } else {
            out := [OpenStatus(h, false)];
          }
        case Unsubscribe(_) => out := [CloseStatus(h, true)];
        case ConnReleased =>
          if kind.Ds? {
            out := [CloseDataCall];
          }
          out := out + [CloseStatus(h, true)];
        case _ =>
      }
    }

    // The list walk of notifyAllSubscribers: step over element i, or erase it.
    static method StepOver(list: seq<Subscriber>, i: nat, t: Target, delete: bool,
                           ghost all: seq<Subscriber>, ghost k: nat)
      returns (next: seq<Subscriber>, n: nat)
      requires k < |all| && i == |Kept(all, k, t, delete)|
      requires list == Kept(all, k, t, delete) + all[k..]
      ensures i < |list| && list[i] == all[k]
      ensures n == |Kept(all, k + 1, t, delete)|
      ensures next == Kept(all, k + 1, t, delete) + all[k + 1..]
    {
      OneOn(list, i, Kept(all, k, t, delete), all, k);
      if delete && Hit(list[i], t) {
        next, n := list[..i] + list[i + 1..], i;
      } else {
        next, n := list, i + 1;
      }
    }

    method NotifyAllSubscribers(e: Event, delete: bool, t: Target) returns (ghost out: seq<Action>)
      modifies this`retries, this`subs
      ensures Effect(View(), out) == NotifyAll(old(View()), e, t, delete)
    {
      var i, list := 0, subs;
      ghost var all, k := subs, 0;
      out := [];
      while i < |list|
        invariant k <= |all| && i == |Kept(all, k, t, delete)|
        invariant list == Kept(all, k, t, delete) + all[k..]
        invariant out == Notices(kind, e, all, k, t)
        invariant retries == RetriesOver(kind, old(retries), e, all, k, t)
        decreases |all| - k
        modifies this`retries
      {
        var s := list[i];
        list, i := StepOver(list, i, t, delete, all, k);
        if Hit(s, t) {
          ghost var told := NotifyEventToSubscriber(e, s.handle);
          out := out + told;
        }
        k := k + 1;
      }
      assert k == |all| && list == Kept(all, k, t, delete);
      subs := list;
    }

    method DropAllSubscribers()
      modifies this`subs
      ensures subs == []
    {
      while subs != []
        decreases |subs|
      {
        subs := subs[1..];
      }
    }

    // Virtual: the base machine asks the framework, the DS machine drives its own data call.
    method RequestOrReleaseDataConn(request: bool, env: Env) returns (ok: bool, ghost out: seq<Action>)
      modifies this`retries
      ensures (Effect(View(), out), ok) == Conn(old(View()), request, env)
    {
      if kind.Base? {
        return true, [if request then RequestConn else ReleaseConn];
      }
      if !request && env.stopFn {
        return true, [StopDataCall];
      }
      var i := GetFirstActive();
      if i == |subs| {
        return false, [];
      }
      var h := subs[i].handle;
      if !env.startFn {
        out := NotifyEventToSubscriber(Denied, h);
        return false, out;
      }
      out := [];
      match env.start {
        case EngineBusy =>
          retries := retries + 1;
          if retries > MAX_START_DATA_CALL_RETRIES {
            out := NotifyEventToSubscriber(Denied, h);
          } else {
            out := [StartRetryTimer];
          }
        case Unsupported => out := NotifyEventToSubscriber(Denied, h);
        case Success =>
        case OtherError =>
      }
      ok, out := env.start.Success?, [StartDataCall] + out;
    }

    method ProcessSubscribe(h: int, wait: bool, env: Env) returns (ghost out: seq<Action>)
      modifies this`state, this`subs, this`retries
      ensures Effect(View(), out) == OnSubscribe(old(View()), h, wait, env)
    {
      var s := Subscriber(h, wait, false);
      out := [];
      match state {
        case Released =>
          AddSubscriber(s);
          var ok;
          ok, out := RequestOrReleaseDataConn(true, env);
          if ok {
            state := Pending;
          }
        case Acquired =>
          out := NotifyEventToSubscriber(Granted, h);
          AddSubscriber(s);
        case _ => AddSubscriber(s);
      }
    }

    method ProcessUnsubscribe(h: int, env: Env) returns (ghost out: seq<Action>)
      modifies this`state, this`subs, this`retries
      ensures Effect(View(), out) == OnUnsubscribe(old(View()), h, env)
    {
      var i := GetSubscriber(h);
      if i == |subs| {
        out := [CloseStatus(h, false)];
      } else if state == Released {
        out := NotifyEventToSubscriber(Unsubscribe(h), h);
      } else {
        out := ParkOrDrop(i);
        ghost var wound := WindDown(env);
        out := out + wound;
      }
    }

    method ParkOrDrop(i: nat) returns (ghost out: seq<Action>)
      requires i < |subs|
      modifies this`subs, this`retries
      ensures Effect(View(), out) == Depart(old(View()), i)
    {
      out := [];
      if subs[i].waitForClose {
        subs := subs[i := subs[i].(inactive := true)];
      } else {
        var h := subs[i].handle;
        out := NotifyEventToSubscriber(Unsubscribe(h), h);
        DeleteSubscriber(h);
      }
    }

    method WindDown(env: Env) returns (ghost out: seq<Action>)
      modifies this`state, this`retries
      ensures Effect(View(), out) == Wind(old(View()), env)
    {
      out := [];
      var active := AnyActiveSubscribers();
      if state == Releasing {
        if subs == [] {
          state := Released;
        }
      } else if subs == [] {
        state := Released;
        var _, released := RequestOrReleaseDataConn(false, env);
        out := released;
      } else if !active {
        state := Releasing;
        var _, released := RequestOrReleaseDataConn(false, env);
        out := released;
      }
    }

    method ProcessClosed(env: Env) returns (ghost out: seq<Action>)
      modifies this`state, this`subs, this`retries
      ensures Effect(View(), out) == OnClosed(old(View()), env)
    {
      out := NotifyAllSubscribers(ConnReleased, true, ForInactive);
      var active := AnyActiveSubscribers();
      if active {
        state := Pending;
        var _, requested := RequestOrReleaseDataConn(true, env);
        out := out + requested;
      } else {
        state := Released;
      }
    }

    method ProcessReleased(env: Env) returns (ghost out: seq<Action>)
      modifies this`state, this`subs, this`retries
      ensures Effect(View(), out) == OnReleased(old(View()), env)
    {
      out := [];
      match state {
        case Acquired =>
          state := Released;
          out := NotifyAllSubscribers(ConnReleased, true, ForAll);
        case Releasing => out := ProcessClosed(env);
        case _ =>
      }
    }

    method ProcessDenied(env: Env) returns (ghost out: seq<Action>)
      modifies this`state, this`subs, this`retries
      ensures Effect(View(), out) == OnDenied(old(View()), env)
    {
      out := [];
      match state {
        case Pending =>
          state := Released;
          out := NotifyAllSubscribers(Denied, true, ForAll);
        case Releasing => out := ProcessClosed(env);
        case _ =>
      }
    }

    // Handles one message: processAgpsEvent, or the retry and restart entry points.
    method ProcessAgpsEvent(e: Event, env: Env)
      modifies this
      ensures View() == Step(old(View()), e, env).m
      ensures log == old(log) + Step(old(View()), e, env).out
    {
      ghost var out := [];
      match e {
        case Subscribe(h, wait) => out := ProcessSubscribe(h, wait, env);
        case Unsubscribe(h) => out := ProcessUnsubscribe(h, env);
        case Granted =>
          if state == Pending {
            state := Acquired;
            out := NotifyAllSubscribers(Granted, false, ForActive);
          }
        case ConnReleased =>
          if kind.Ds? && state == Pending {
            out := ProcessDenied(env);
          } else {
            out := ProcessReleased(env);
          }
        case Denied => out := ProcessDenied(env);
        case RetryTimer =>
          var i := GetFirstActive();
          if kind.Ds? && i < |subs| {
            out := [PostSuplEs(subs[i].handle)];
          }
        case ModemRestart => DropAllSubscribers();
      }
      log := log + out;
    }
  }
}
