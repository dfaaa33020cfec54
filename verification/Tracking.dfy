/**
 Tracking sessions multiplexed on one engine: gps/gnss/GnssAdapter.cpp, with the default ULP
 proxy, whose send functions always decline.

 `Next` is the relation one message establishes.  It is a relation and not a function because the
 source picks among equally small sessions by map order.  `GnssTracking` is the source's object.
 */
module Tracking {

  datatype Key = Key(client: int, id: int)

  datatype Options = Options(size: nat, minInterval: nat, mode: int)

  datatype Engine = Off | On(minInterval: nat, mode: Mode)

  datatype Mode = Standalone | MsBased | MsAssisted

  type Sessions = map<Key, Options>

  const GNSS_SUPL_MODE_MSB := 1
  const GNSS_SUPL_MODE_MSA := 2

  // convertOptions: what the engine is told to do for these options.
  function Convert(o: Options): Engine {
    On(o.minInterval,
       if o.mode == GNSS_SUPL_MODE_MSB then MsBased
       else if o.mode == GNSS_SUPL_MODE_MSA then MsAssisted else Standalone)
  }

  datatype State = State(sessions: Sessions, engine: Engine)

  // `ok` is the engine's answer, should the message call it.
  datatype Event =
    | Start(key: Key, opts: Options, hasCallback: bool, ok: bool)
    | Update(key: Key, opts: Options, ok: bool)
    | Stop(key: Key, ok: bool)
    | StopClient(client: int)
    | EngineReset
    | RestartSessions(ok: bool)

  const INIT := State(map[], Off)

  // o belongs to one of these sessions, and none of them has a smaller interval.
  ghost predicate Smallest(m: Sessions, o: Options) {
    (exists k :: k in m && m[k] == o) && forall j :: j in m ==> o.minInterval <= m[j].minInterval
  }

  // A successful engine call sets the engine; a failed one leaves it and the sessions alone.
  predicate Answer(s: State, ok: bool, sessions: Sessions, engine: Engine, t: State) {
    t == if ok then State(sessions, engine) else s
  }

  ghost predicate NextStart(s: State, key: Key, o: Options, ok: bool, t: State) {
    var saved := s.sessions[key := o];
    if s.sessions == map[] then Answer(s, ok, saved, Convert(o), t)
    else
      exists small :: Smallest(s.sessions, small) && (
        if o.minInterval < small.minInterval then Answer(s, ok, saved, Convert(o), t)
        else t == s.(sessions := saved))
  }

  ghost predicate NextUpdate(s: State, key: Key, o: Options, ok: bool, t: State)
    requires key in s.sessions
  {
    var saved := s.sessions[key := o];
    if |s.sessions| == 1 then Answer(s, ok, saved, Convert(o), t)
    else
      exists small :: Smallest(s.sessions - {key}, small) && (
        if o.minInterval < small.minInterval then Answer(s, ok, saved, Convert(o), t)
        else if s.sessions[key].minInterval < small.minInterval then
          Answer(s, ok, saved, Convert(small), t)
        else t == s.(sessions := saved))
  }

  ghost predicate NextStop(s: State, key: Key, ok: bool, t: State)
    requires key in s.sessions
  {
    var left := s.sessions - {key};
    if |s.sessions| == 1 then Answer(s, ok, left, Off, t)
    else
      exists small :: Smallest(left, small) && (
        if s.sessions[key].minInterval < small.minInterval then Answer(s, ok, left, Convert(small), t)
        else t == s.(sessions := left))
  }

  // stopClientSessions: each session of the client is stopped in some order, and stays if the engine
  // refuses.  `states` are those between the stops.
  ghost predicate Stops(states: seq<State>, order: seq<Key>, oks: seq<bool>) {
    && |states| == |order| + 1 && |oks| == |order|
    && forall i :: 0 <= i < |order| ==>
         order[i] in states[i].sessions && NextStop(states[i], order[i], oks[i], states[i + 1])
  }

  ghost predicate Covers(order: seq<Key>, m: Sessions, client: int) {
    && (forall i, j :: 0 <= i < j < |order| ==> order[i] != order[j])
    && (forall k :: k in order <==> k in m && k.client == client)
  }

  ghost predicate IsRemoval(states: seq<State>, order: seq<Key>, oks: seq<bool>, s: State, client: int, t: State) {
    Stops(states, order, oks) && Covers(order, s.sessions, client) && states[0] == s && states[|order|] == t
  }

  ghost predicate NextStopClient(s: State, client: int, t: State) {
    exists states: seq<State>, order, oks :: IsRemoval(states, order, oks, s, client, t)
  }

  ghost predicate NextRestart(s: State, ok: bool, t: State) {
    if s.sessions == map[] then t == s
    else exists small :: Smallest(s.sessions, small) && Answer(s, ok, s.sessions, Convert(small), t)
  }

  ghost predicate Next(s: State, e: Event, t: State) {
    match e
    case Start(key, o, hasCallback, ok) =>
      if !hasCallback || o.size == 0 then t == s else NextStart(s, key, o, ok, t)
    case Update(key, o, ok) =>
      if key !in s.sessions || o.size == 0 then t == s else NextUpdate(s, key, o, ok, t)
    case Stop(key, ok) => if key !in s.sessions then t == s else NextStop(s, key, ok, t)
    case StopClient(client) => NextStopClient(s, client, t)
    case EngineReset => t == s.(engine := Off)
    case RestartSessions(ok) => NextRestart(s, ok, t)
  }

  // The interval is strictly below that of all these sessions: the only case for an engine call.
  ghost predicate Below(interval: nat, m: Sessions) { forall j :: j in m ==> interval < m[j].minInterval }

  // An update calls the engine if the session was, or becomes, the only one at the minimum.
  ghost predicate Moves(m: Sessions, key: Key, o: Options) {
    key in m && (Below(o.minInterval, m - {key}) || Below(m[key].minInterval, m - {key}))
  }

  /* ---------- the engine runs at the minimum ---------- */

  // The engine is on iff there are sessions, and its interval is their minimum.
  ghost predicate AtMinimum(s: State) {
    && (s.engine.On? <==> s.sessions != map[])
    && (s.engine.On? ==> Minimum(s.sessions, s.engine.minInterval))
  }

  ghost predicate Minimum(m: Sessions, interval: nat) {
    (exists k :: k in m && m[k].minInterval == interval) &&
    forall j :: j in m ==> interval <= m[j].minInterval
  }

  // If the engine is on at all, it is at the minimum; without sessions it is off.
  ghost predicate Inv(s: State) {
    && (forall k :: k in s.sessions ==> s.sessions[k].size > 0)
    && (s.sessions == map[] ==> s.engine.Off?)
    && (s.engine.On? ==> Minimum(s.sessions, s.engine.minInterval))
  }

  lemma StartKeeps(s: State, key: Key, o: Options, ok: bool, t: State)
    requires Inv(s) && key !in s.sessions && o.size > 0 && NextStart(s, key, o, ok, t)
    ensures Inv(t)
  {
    assert key in s.sessions[key := o] && s.sessions[key := o][key] == o;
    if s.engine.On? {
      var k :| k in s.sessions && s.sessions[k].minInterval == s.engine.minInterval;
      assert k in s.sessions[key := o] && s.sessions[key := o][k] == s.sessions[k];
    }
  }

  // A one-element map has no other session; any other map has one.
  lemma Others(m: Sessions, key: Key)
    requires key in m
    ensures |m| == 1 <==> m - {key} == map[]
  {
    var left := m - {key};
    assert m == left[key := m[key]];
    assert left == map[] ==> m == map[key := m[key]];
  }

  // Replacing one session: the minimum is the smaller of its interval and that of the others.
  lemma ReplacedMinimum(m: Sessions, key: Key, o: Options, small: Options)
    requires key in m && Smallest(m - {key}, small)
    ensures var (saved, low) := (m[key := o], small.minInterval);
      && Minimum(saved, if o.minInterval < low then o.minInterval else low)
      && Minimum(m, if m[key].minInterval < low then m[key].minInterval else low)
  {
    var (left, saved) := (m - {key}, m[key := o]);
    var k :| k in left && left[k] == small;
    assert k in saved && saved[k] == small && k in m && m[k] == small;
    assert key in saved && saved[key] == o;
    forall j | j in saved && j != key ensures small.minInterval <= saved[j].minInterval && saved[j] == m[j] {
      assert j in left && left[j] == saved[j];
    }
    forall j | j in m && j != key ensures small.minInterval <= m[j].minInterval {
      assert j in left;
    }
  }

  lemma MinimumIsUnique(m: Sessions, a: nat, b: nat)
    requires Minimum(m, a) && Minimum(m, b)
    ensures a == b
  {
  }

  // Replacing a session keeps the invariant if the engine is off, or ends at the new minimum.
  lemma ReplacedKeeps(s: State, key: Key, o: Options, engine: Engine)
    requires Inv(s) && key in s.sessions && o.size > 0
    requires engine.On? ==> Minimum(s.sessions[key := o], engine.minInterval)
    ensures Inv(State(s.sessions[key := o], engine))
  {
    assert key in s.sessions[key := o];
    hide Minimum;
  }

  lemma UpdateAlone(s: State, key: Key, o: Options, ok: bool, t: State)
    requires Inv(s) && key in s.sessions && |s.sessions| == 1 && o.size > 0
    requires Answer(s, ok, s.sessions[key := o], Convert(o), t)
    ensures Inv(t)
  {
    Others(s.sessions, key);
    assert forall j :: j in s.sessions ==> j == key || j in s.sessions - {key};
    assert key in s.sessions[key := o];
    ReplacedKeeps(s, key, o, Convert(o));
    hide Inv;
  }

  lemma UpdateAmong(s: State, key: Key, o: Options, ok: bool, small: Options, t: State)
    requires Inv(s) && key in s.sessions && o.size > 0 && Smallest(s.sessions - {key}, small)
    requires var saved := s.sessions[key := o];
      if o.minInterval < small.minInterval then Answer(s, ok, saved, Convert(o), t)
      else if s.sessions[key].minInterval < small.minInterval then Answer(s, ok, saved, Convert(small), t)
      else t == s.(sessions := saved)
    ensures Inv(t)
  {
    hide Minimum, Smallest;
    var (m, low) := (s.sessions, small.minInterval);
    ReplacedMinimum(m, key, o, small);
    if t != s {
      if s.engine.On? {
        MinimumIsUnique(m, s.engine.minInterval, if m[key].minInterval < low then m[key].minInterval else low);
      }
      ReplacedKeeps(s, key, o, t.engine);
    }
  }

  lemma UpdateKeeps(s: State, key: Key, o: Options, ok: bool, t: State)
    requires Inv(s) && key in s.sessions && o.size > 0 && NextUpdate(s, key, o, ok, t)
    ensures Inv(t)
  {
    hide Smallest, Inv;
    var saved := s.sessions[key := o];
    if |s.sessions| == 1 {
      UpdateAlone(s, key, o, ok, t);
    } else {
      var small :| Smallest(s.sessions - {key}, small) && (
        if o.minInterval < small.minInterval then Answer(s, ok, saved, Convert(o), t)
        else if s.sessions[key].minInterval < small.minInterval then Answer(s, ok, saved, Convert(small), t)
        else t == s.(sessions := saved));
      UpdateAmong(s, key, o, ok, small, t);
    }
  }

  lemma StopKeeps(s: State, key: Key, ok: bool, t: State)
    requires Inv(s) && key in s.sessions && NextStop(s, key, ok, t)
    ensures Inv(t)
  {
    var (m, left) := (s.sessions, s.sessions - {key});
    Others(m, key);
    if |m| != 1 {
      var small :| Smallest(left, small) && (
        if m[key].minInterval < small.minInterval then Answer(s, ok, left, Convert(small), t)
        else t == s.(sessions := left));
      var j :| j in left && left[j] == small;
      assert j in m;
      if s.engine.On? {
        var k :| k in m && m[k].minInterval == s.engine.minInterval;
        assert k == key || k in left;
      }
    }
  }

  lemma {:induction false} StopsKeep(states: seq<State>, order: seq<Key>, oks: seq<bool>, k: nat)
    requires Stops(states, order, oks) && Inv(states[0]) && k <= |order|
    ensures Inv(states[k])
  {
    hide Inv, NextStop;
    if k > 0 {
      StopsKeep(states, order, oks, k - 1);
      StopKeeps(states[k - 1], order[k - 1], oks[k - 1], states[k]);
    }
  }

  lemma StopClientKeeps(s: State, client: int, t: State)
    requires Inv(s) && NextStopClient(s, client, t)
    ensures Inv(t)
  {
    var states: seq<State>, order, oks :| IsRemoval(states, order, oks, s, client, t);
    StopsKeep(states, order, oks, |order|);
  }

  lemma StepKeeps(s: State, e: Event, t: State)
    requires Inv(s) && Next(s, e, t)
    requires e.Start? ==> e.key !in s.sessions
    ensures Inv(t)
  {
    match e {
      case Start(key, o, hasCallback, ok) => if hasCallback && o.size > 0 { StartKeeps(s, key, o, ok, t); }
      case Update(key, o, ok) => if key in s.sessions && o.size > 0 { UpdateKeeps(s, key, o, ok, t); }
      case Stop(key, ok) => if key in s.sessions { StopKeeps(s, key, ok, t); }
      case StopClient(client) => StopClientKeeps(s, client, t);
      case EngineReset =>
      case RestartSessions(ok) =>
    }
    hide NextStart, NextUpdate, NextStop, NextStopClient;
  }

  // A run of messages in which every start brings a new session key.
  ghost predicate IsRun(states: seq<State>, events: seq<Event>) {
    && |states| == |events| + 1 && states[0] == INIT
    && forall i :: 0 <= i < |events| ==>
         && Next(states[i], events[i], states[i + 1])
         && (events[i].Start? ==> events[i].key !in states[i].sessions)
  }

  // Whether a message but the removal of a client has to call the engine.
  ghost predicate CallsEngine(s: State, e: Event) {
    match e
    case Start(_, o, hasCallback, _) => hasCallback && o.size > 0 && Below(o.minInterval, s.sessions)
    case Update(key, o, _) => o.size > 0 && Moves(s.sessions, key, o)
    case Stop(key, _) => key in s.sessions && Below(s.sessions[key].minInterval, s.sessions - {key})
    case RestartSessions(_) => s.sessions != map[]
    case _ => false
  }

  ghost predicate Succeeds(s: State, e: Event) {
    match e
    case StopClient(_) => false
    case EngineReset => false
    case _ => CallsEngine(s, e) && e.ok
  }

  // A call that succeeds leaves the engine at the minimum; and without one only a reset changes it,
  // while the first session cannot come.
  ghost predicate Called(s: State, e: Event, t: State) {
    && (Succeeds(s, e) ==> AtMinimum(t) && (t.engine.On? ==> Asked(t)))
    && (Succeeds(s, e) && (e.Start? || e.Update?) ==> e.key in t.sessions)
    && (!Succeeds(s, e) && !e.EngineReset? ==> t.engine == s.engine && (s.sessions == map[] ==> t.sessions == map[]))
  }

  // What the engine runs at is what some live session asked for.
  ghost predicate Asked(s: State) {
    exists k :: k in s.sessions && Convert(s.sessions[k]) == s.engine
  }

  lemma StartCalls(s: State, key: Key, o: Options, ok: bool, t: State)
    requires Inv(s) && key !in s.sessions && o.size > 0 && NextStart(s, key, o, ok, t)
    ensures Called(s, Start(key, o, true, ok), t)
  {
    var saved := s.sessions[key := o];
    assert key in saved && saved[key] == o;
    if s.sessions != map[] {
      var small :| Smallest(s.sessions, small) && (
        if o.minInterval < small.minInterval then Answer(s, ok, saved, Convert(o), t)
        else t == s.(sessions := saved));
      var k :| k in s.sessions && s.sessions[k] == small;
    }
  }

  lemma UpdateCalls(s: State, key: Key, o: Options, ok: bool, t: State)
    requires Inv(s) && key in s.sessions && o.size > 0 && NextUpdate(s, key, o, ok, t)
    ensures Called(s, Update(key, o, ok), t)
  {
    var (left, saved) := (s.sessions - {key}, s.sessions[key := o]);
    assert key in saved && saved[key] == o;
    UpdateKeeps(s, key, o, ok, t);
    Others(s.sessions, key);
    if |s.sessions| != 1 {
      var small :| Smallest(left, small) && (
        if o.minInterval < small.minInterval then Answer(s, ok, saved, Convert(o), t)
        else if s.sessions[key].minInterval < small.minInterval then Answer(s, ok, saved, Convert(small), t)
        else t == s.(sessions := saved));
      var k :| k in left && left[k] == small;
      assert k in saved && saved[k] == small;
      MovesIff(s.sessions, key, o, small);
    }
    hide Moves, Smallest, Minimum;
  }

  lemma MovesIff(m: Sessions, key: Key, o: Options, small: Options)
    requires key in m && Smallest(m - {key}, small)
    ensures Moves(m, key, o) <==> o.minInterval < small.minInterval || m[key].minInterval < small.minInterval
  {
    var k :| k in m - {key} && (m - {key})[k] == small;
  }

  lemma StopCalls(s: State, key: Key, ok: bool, t: State)
    requires Inv(s) && key in s.sessions && NextStop(s, key, ok, t)
    ensures Called(s, Stop(key, ok), t)
  {
    var left := s.sessions - {key};
    StopKeeps(s, key, ok, t);
    Others(s.sessions, key);
    if |s.sessions| != 1 {
      var small :| Smallest(left, small) && (
        if s.sessions[key].minInterval < small.minInterval then Answer(s, ok, left, Convert(small), t)
        else t == s.(sessions := left));
      var k :| k in left && left[k] == small;
      assert Below(s.sessions[key].minInterval, left) <==> s.sessions[key].minInterval < small.minInterval;
    }
    hide Minimum;
  }

  lemma RestartCalls(s: State, ok: bool, t: State)
    requires Inv(s) && NextRestart(s, ok, t)
    ensures Called(s, RestartSessions(ok), t)
  {
    if s.sessions != map[] {
      var small :| Smallest(s.sessions, small) && Answer(s, ok, s.sessions, Convert(small), t);
      var k :| k in s.sessions && s.sessions[k] == small;
    }
  }

  lemma StepCalls(s: State, e: Event, t: State)
    requires Inv(s) && Next(s, e, t) && !e.StopClient? && (e.Start? ==> e.key !in s.sessions)
    ensures Called(s, e, t)
  {
    match e {
      case Start(key, o, hasCallback, ok) => if hasCallback && o.size > 0 { StartCalls(s, key, o, ok, t); }
      case Update(key, o, ok) => if key in s.sessions && o.size > 0 { UpdateCalls(s, key, o, ok, t); }
      case Stop(key, ok) => if key in s.sessions { StopCalls(s, key, ok, t); }
      case RestartSessions(ok) => RestartCalls(s, ok, t);
      case _ =>
    }
    hide NextStart, NextUpdate, NextStop, NextRestart, AtMinimum, Asked, Below, Smallest, Minimum;
  }

  // The engine has been reset, and no call has succeeded since.
  ghost predicate DownAfter(down: bool, s: State, e: Event) { e.EngineReset? || (down && !Succeeds(s, e)) }

  ghost predicate DownAlong(down: bool, states: seq<State>, order: seq<Key>, oks: seq<bool>, k: nat)
    requires k <= |order| && |states| == |order| + 1 && |oks| == |order|
  {
    if k == 0 then down
    else DownAfter(DownAlong(down, states, order, oks, k - 1), states[k - 1], Stop(order[k - 1], oks[k - 1]))
  }

  ghost predicate DownNext(down: bool, s: State, e: Event, t: State) {
    if e.StopClient? then
      exists states: seq<State>, order, oks ::
        IsRemoval(states, order, oks, s, e.client, t) && DownAlong(down, states, order, oks, |order|)
    else DownAfter(down, s, e)
  }

  ghost predicate Down(states: seq<State>, events: seq<Event>, i: nat)
    requires i < |states| == |events| + 1
  {
    i > 0 && DownNext(Down(states, events, i - 1), states[i - 1], events[i - 1], states[i])
  }

  // While there are sessions, the engine is off exactly if it is down.
  ghost predicate OffIfDown(s: State, down: bool) { s.sessions != map[] ==> (s.engine.Off? <==> down) }

  lemma StepDown(s: State, e: Event, t: State, down: bool)
    requires Inv(s) && Next(s, e, t) && !e.StopClient? && (e.Start? ==> e.key !in s.sessions)
    requires OffIfDown(s, down)
    ensures OffIfDown(t, DownAfter(down, s, e))
  {
    StepCalls(s, e, t);
    if e.EngineReset? {
      assert t.engine.Off?;
    } else if !Succeeds(s, e) {
      assert s.sessions == map[] ==> t.sessions == map[];
    }
    hide Succeeds, Minimum, NextStart, NextUpdate, NextStop, NextRestart;
  }

  lemma {:induction false} StopsDown(states: seq<State>, order: seq<Key>, oks: seq<bool>, k: nat, down: bool)
    requires Stops(states, order, oks) && Inv(states[0]) && OffIfDown(states[0], down) && k <= |order|
    ensures OffIfDown(states[k], DownAlong(down, states, order, oks, k))
  {
    hide Inv, NextStop, DownAfter, OffIfDown;
    if k > 0 {
      StopsDown(states, order, oks, k - 1, down);
      StopsKeep(states, order, oks, k - 1);
      StepDown(states[k - 1], Stop(order[k - 1], oks[k - 1]), states[k], DownAlong(down, states, order, oks, k - 1));
    }
  }

  lemma RemovalDown(s: State, client: int, t: State, down: bool)
    requires Inv(s) && OffIfDown(s, down) && NextStopClient(s, client, t)
    ensures OffIfDown(t, DownNext(down, s, StopClient(client), t))
  {
    forall states: seq<State>, order, oks | IsRemoval(states, order, oks, s, client, t)
      ensures OffIfDown(t, DownAlong(down, states, order, oks, |order|)) {
      StopsDown(states, order, oks, |order|, down);
    }
    hide Inv, Stops, Covers;
  }

  // After every message of every run, whatever the engine answered, an engine that is on is at the
  // minimum of the live sessions; and while there are sessions it is on exactly unless it has been
  // reset and no call has succeeded since.
  lemma {:induction false} EngineRunsAtMinimum(states: seq<State>, events: seq<Event>, i: nat)
    requires IsRun(states, events) && i < |states|
    ensures Inv(states[i]) && OffIfDown(states[i], Down(states, events, i))
    ensures AtMinimum(states[i]) <==> states[i].sessions == map[] || !Down(states, events, i)
  {
    hide Next, DownNext;
    if i == 0 {
      assert Inv(INIT);
    } else {
      EngineRunsAtMinimum(states, events, i - 1);
      var (s, e, t, down) := (states[i - 1], events[i - 1], states[i], Down(states, events, i - 1));
      StepKeeps(s, e, t);
      NextDown(s, e, t, down);
      hide Minimum;
    }
  }

  lemma NextDown(s: State, e: Event, t: State, down: bool)
    requires Inv(s) && Next(s, e, t) && (e.Start? ==> e.key !in s.sessions) && OffIfDown(s, down)
    ensures OffIfDown(t, DownNext(down, s, e, t))
  {
    if e.StopClient? {
      RemovalDown(s, e.client, t, down);
    } else {
      StepDown(s, e, t, down);
    }
    hide Inv, OffIfDown, NextStart, NextUpdate, NextStop, NextRestart, NextStopClient, DownAfter;
  }

  // A successful restart makes up for the reset from the session map alone.
  lemma RestartRecovers(s: State, t: State)
    requires Inv(s) && NextRestart(s, true, t)
    ensures AtMinimum(t) && t.sessions == s.sessions
  {
  }

  // After a reset whose restart has failed, a start or an update that needs no call succeeds, and
  // leaves the engine off.
  lemma SilentSuccessLeavesOff(s: State, e: Event, t: State)
    requires Inv(s) && Next(s, e, t) && (e.Start? || e.Update?) && (e.Start? ==> e.key !in s.sessions)
    requires s.engine.Off? && t.sessions != s.sessions
    ensures t.engine.Off? <==> !CallsEngine(s, e)
  {
    StepCalls(s, e, t);
    if CallsEngine(s, e) && !e.ok {
      CallFails(s, e, t);
      assert false;
    }
    hide NextStart, NextUpdate, Below, Moves, Minimum;
  }

  lemma CallFails(s: State, e: Event, t: State)
    requires Inv(s) && Next(s, e, t) && (e.Start? || e.Update?) && (e.Start? ==> e.key !in s.sessions)
    requires CallsEngine(s, e) && !e.ok
    ensures t == s
  {
    if e.Start? {
      if s.sessions != map[] {
        var small :| Smallest(s.sessions, small) && (
          if e.opts.minInterval < small.minInterval
          then Answer(s, e.ok, s.sessions[e.key := e.opts], Convert(e.opts), t)
          else t == s.(sessions := s.sessions[e.key := e.opts]));
        var k :| k in s.sessions && s.sessions[k] == small;
      }
    } else if |s.sessions| != 1 {
      var (left, saved) := (s.sessions - {e.key}, s.sessions[e.key := e.opts]);
      var small :| Smallest(left, small) && (
        if e.opts.minInterval < small.minInterval then Answer(s, e.ok, saved, Convert(e.opts), t)
        else if s.sessions[e.key].minInterval < small.minInterval then Answer(s, e.ok, saved, Convert(small), t)
        else t == s.(sessions := saved));
      MovesIff(s.sessions, e.key, e.opts, small);
    }
  }

  /* ---------- what the adapter relies on ---------- */

  // Another session is at the minimum.
  ghost predicate OtherAt(m: Sessions, key: Key, low: nat) {
    exists j :: j in m && j != key && m[j].minInterval == low
  }

  lemma SavedMinimumIff(m: Sessions, key: Key, o: Options, low: nat)
    requires Minimum(m, low) && low <= o.minInterval
    ensures Minimum(m[key := o], low) <==> o.minInterval == low || key !in m || OtherAt(m, key, low)
  {
    var saved := m[key := o];
    assert key in saved && saved[key] == o;
    assert forall j :: j in m && j != key ==> j in saved && saved[j] == m[j];
    assert forall j :: j in saved && j != key ==> j in m;
    var k :| k in m && m[k].minInterval == low;
    assert key !in m ==> k in saved && saved[k].minInterval == low;
  }

  lemma SavedBelow(m: Sessions, key: Key, o: Options, low: nat)
    requires Minimum(m, low) && o.minInterval < low
    ensures Minimum(m[key := o], o.minInterval)
  {
    assert key in m[key := o] && m[key := o][key] == o;
  }

  lemma SmallestIsMinimum(m: Sessions, small: Options)
    requires Smallest(m, small)
    ensures Minimum(m, small.minInterval)
  {
    var k :| k in m && m[k] == small;
  }

  // A start that reuses a live key keeps the minimum exactly when the replaced session was not the
  // only one at it, or the new interval is no larger.
  lemma StartKeepsMinimumIff(s: State, e: Event, t: State)
    requires Inv(s) && AtMinimum(s) && e.Start? && Next(s, e, t)
    ensures AtMinimum(t) <==>
      || !e.hasCallback || e.opts.size == 0
      || s.engine.Off? || e.opts.minInterval <= s.engine.minInterval || e.key !in s.sessions
      || OtherAt(s.sessions, e.key, s.engine.minInterval)
  {
    hide Minimum, Smallest, OtherAt;
    var (m, o) := (s.sessions, e.opts);
    var saved := m[e.key := o];
    assert e.key in saved;
    if !e.hasCallback || o.size == 0 {
    } else if m == map[] {
      StartsAlone(e.key, o);
    } else {
      var small :| Smallest(m, small) && (
        if o.minInterval < small.minInterval then Answer(s, e.ok, saved, Convert(o), t)
        else t == s.(sessions := saved));
      SmallestIsMinimum(m, small);
      MinimumIsUnique(m, small.minInterval, s.engine.minInterval);
      if o.minInterval < small.minInterval {
        SavedBelow(m, e.key, o, small.minInterval);
      } else {
        SavedMinimumIff(m, e.key, o, small.minInterval);
      }
    }
  }

  lemma StartsAlone(key: Key, o: Options)
    ensures Minimum(map[][key := o], o.minInterval)
  {
    var m: Sessions := map[][key := o];
    assert key in m && m[key] == o;
  }

  lemma ReusedKeyMissesMinimum()
    ensures var (k, o) := (Key(1, 7), Options(1, 500, 0));
      var s := State(map[k := o], Convert(o));
      var (e, t) := (Start(k, Options(1, 1000, 0), true, true), s.(sessions := map[k := Options(1, 1000, 0)]));
      Inv(s) && Next(s, e, t) && !AtMinimum(t)
  {
    var (k, o) := (Key(1, 7), Options(1, 500, 0));
    var s := State(map[k := o], Convert(o));
    assert s.sessions[k] == o && Smallest(s.sessions, o);
    assert s.sessions[k := Options(1, 1000, 0)] == map[k := Options(1, 1000, 0)];
  }

  /* ---------- the mode the engine runs in ---------- */

  // The interval is always that of a live session.  The mode need not be.
  ghost predicate ModeAsked(s: State) { s.engine.On? ==> Asked(s) }

  // Somebody else asked for just what the engine runs at.
  ghost predicate OtherAsks(s: State, key: Key) {
    exists j :: j in s.sessions && j != key && Convert(s.sessions[j]) == s.engine
  }

  // A stop or an update that calls no engine, of a session that was the only one to ask for what
  // the engine runs at.
  ghost predicate LosesMode(s: State, e: Event) {
    match e
    case Stop(key, _) => s.engine.On? && key in s.sessions && !CallsEngine(s, e) && !OtherAsks(s, key)
    case Update(key, o, _) =>
      && s.engine.On? && key in s.sessions && o.size > 0 && !CallsEngine(s, e)
      && !OtherAsks(s, key) && Convert(o) != s.engine
    case _ => false
  }

  // A start or an update that calls no engine, and asks for what it runs at.
  ghost predicate FindsMode(s: State, e: Event) {
    match e
    case Start(_, o, hasCallback, _) => hasCallback && o.size > 0 && !CallsEngine(s, e) && Convert(o) == s.engine
    case Update(key, o, _) => key in s.sessions && o.size > 0 && !CallsEngine(s, e) && Convert(o) == s.engine
    case _ => false
  }

  // Whether the mode is lost after a message but the removal of a client, if it was `lost` before.
  ghost predicate LostAfter(lost: bool, s: State, e: Event) {
    !Succeeds(s, e) && !e.EngineReset? && !FindsMode(s, e) && (lost || LosesMode(s, e))
  }

  // No call is made: who asks afterwards asked before, or is the session that was replaced.
  lemma AskedWithout(s: State, key: Key)
    requires key in s.sessions
    ensures Asked(State(s.sessions - {key}, s.engine)) <==> OtherAsks(s, key)
  {
    var left := s.sessions - {key};
    if j :| j in s.sessions && j != key && Convert(s.sessions[j]) == s.engine {
      assert j in left && left[j] == s.sessions[j];
    }
  }

  lemma AskedReplaced(s: State, key: Key, o: Options)
    ensures Asked(State(s.sessions[key := o], s.engine)) <==> OtherAsks(s, key) || Convert(o) == s.engine
  {
    var saved := s.sessions[key := o];
    assert key in saved && saved[key] == o;
    if j :| j in s.sessions && j != key && Convert(s.sessions[j]) == s.engine {
      assert j in saved && saved[j] == s.sessions[j];
    }
  }

  // The sessions after a message that calls no engine, or whose call fails.
  lemma StepSaves(s: State, e: Event, t: State)
    requires Inv(s) && Next(s, e, t) && !e.StopClient? && (e.Start? ==> e.key !in s.sessions) && !Succeeds(s, e)
    ensures t.sessions ==
      if CallsEngine(s, e) then s.sessions
      else match e
        case Start(key, o, hasCallback, _) => if hasCallback && o.size > 0 then s.sessions[key := o] else s.sessions
        case Update(key, o, _) => if key in s.sessions && o.size > 0 then s.sessions[key := o] else s.sessions
        case Stop(key, _) => if key in s.sessions then s.sessions - {key} else s.sessions
        case _ => s.sessions
  {
    match e {
      case Start(key, o, hasCallback, ok) =>
        if hasCallback && o.size > 0 && s.sessions != map[] {
          var small :| Smallest(s.sessions, small) && (
            if o.minInterval < small.minInterval then Answer(s, ok, s.sessions[key := o], Convert(o), t)
            else t == s.(sessions := s.sessions[key := o]));
          var k :| k in s.sessions && s.sessions[k] == small;
        }
      case Update(key, o, ok) =>
        if key in s.sessions && o.size > 0 { UpdateSaves(s, key, o, ok, t); }
      case Stop(key, ok) =>
        if key in s.sessions { StopSaves(s, key, ok, t); }
      case _ =>
    }
    hide NextUpdate, NextStop;
  }

  lemma UpdateSaves(s: State, key: Key, o: Options, ok: bool, t: State)
    requires key in s.sessions && o.size > 0 && NextUpdate(s, key, o, ok, t)
    requires !Succeeds(s, Update(key, o, ok))
    ensures t.sessions == if Moves(s.sessions, key, o) then s.sessions else s.sessions[key := o]
  {
    var (left, saved) := (s.sessions - {key}, s.sessions[key := o]);
    Others(s.sessions, key);
    if |s.sessions| != 1 {
      var small :| Smallest(left, small) && (
        if o.minInterval < small.minInterval then Answer(s, ok, saved, Convert(o), t)
        else if s.sessions[key].minInterval < small.minInterval then Answer(s, ok, saved, Convert(small), t)
        else t == s.(sessions := saved));
      MovesIff(s.sessions, key, o, small);
    }
  }

  lemma StopSaves(s: State, key: Key, ok: bool, t: State)
    requires key in s.sessions && NextStop(s, key, ok, t) && !Succeeds(s, Stop(key, ok))
    ensures t.sessions == if CallsEngine(s, Stop(key, ok)) then s.sessions else s.sessions - {key}
  {
    var left := s.sessions - {key};
    Others(s.sessions, key);
    if |s.sessions| != 1 {
      var small :| Smallest(left, small) && (
        if s.sessions[key].minInterval < small.minInterval then Answer(s, ok, left, Convert(small), t)
        else t == s.(sessions := left));
      var k :| k in left && left[k] == small;
      assert Below(s.sessions[key].minInterval, left) <==> s.sessions[key].minInterval < small.minInterval;
    }
  }

  // After every message but the removal of a client: the engine runs as some live session asked,
  // exactly unless that was lost before or is lost now, and not found again.
  lemma StepKeepsModeIff(s: State, e: Event, t: State)
    requires Inv(s) && Next(s, e, t) && !e.StopClient? && (e.Start? ==> e.key !in s.sessions)
    ensures ModeAsked(t) <==> !LostAfter(!ModeAsked(s), s, e)
  {
    StepCalls(s, e, t);
    if !Succeeds(s, e) && !e.EngineReset? {
      StepSaves(s, e, t);
      assert t == State(t.sessions, s.engine);
      match e {
        case Start(key, o, hasCallback, ok) => AskedReplaced(s, key, o); AnyAsks(s, key);
        case Update(key, o, ok) => AskedReplaced(s, key, o); AnyAsks(s, key);
        case Stop(key, ok) => if key in s.sessions { AskedWithout(s, key); AnyAsks(s, key); }
        case _ =>
      }
    }
    hide Asked, OtherAsks, CallsEngine, Minimum, AtMinimum, NextStart, NextUpdate, NextStop, NextRestart;
  }

  lemma AnyAsks(s: State, key: Key)
    ensures OtherAsks(s, key) ==> Asked(s)
    ensures key !in s.sessions ==> (OtherAsks(s, key) <==> Asked(s))
  {
  }

  ghost predicate LostAlong(lost: bool, states: seq<State>, order: seq<Key>, oks: seq<bool>, k: nat)
    requires k <= |order| && |states| == |order| + 1 && |oks| == |order|
  {
    if k == 0 then lost
    else LostAfter(LostAlong(lost, states, order, oks, k - 1), states[k - 1], Stop(order[k - 1], oks[k - 1]))
  }

  // In the removal of a client, a stop may lose the mode, and one that calls the engine finds it.
  lemma {:induction false} StopsKeepModeIff(states: seq<State>, order: seq<Key>, oks: seq<bool>, k: nat)
    requires Stops(states, order, oks) && Inv(states[0]) && k <= |order|
    ensures ModeAsked(states[k]) <==> !LostAlong(!ModeAsked(states[0]), states, order, oks, k)
  {
    hide Inv, NextStop, ModeAsked, LostAfter;
    if k > 0 {
      StopsKeepModeIff(states, order, oks, k - 1);
      StopsKeep(states, order, oks, k - 1);
      StepKeepsModeIff(states[k - 1], Stop(order[k - 1], oks[k - 1]), states[k]);
    }
  }

  ghost predicate LostNext(lost: bool, s: State, e: Event, t: State) {
    if e.StopClient? then
      exists states: seq<State>, order, oks ::
        IsRemoval(states, order, oks, s, e.client, t) && LostAlong(lost, states, order, oks, |order|)
    else LostAfter(lost, s, e)
  }

  lemma RemovalKeepsModeIff(s: State, client: int, t: State)
    requires Inv(s) && NextStopClient(s, client, t)
    ensures ModeAsked(t) <==> !LostNext(!ModeAsked(s), s, StopClient(client), t)
  {
    forall states: seq<State>, order, oks | IsRemoval(states, order, oks, s, client, t)
      ensures ModeAsked(t) <==> !LostAlong(!ModeAsked(s), states, order, oks, |order|) {
      StopsKeepModeIff(states, order, oks, |order|);
    }
    hide Inv, Stops, Covers, ModeAsked;
  }

  ghost predicate Lost(states: seq<State>, events: seq<Event>, i: nat)
    requires i < |states| == |events| + 1
  {
    i > 0 && LostNext(Lost(states, events, i - 1), states[i - 1], events[i - 1], states[i])
  }

  // In every run, client removals and resets included, the engine runs as some live session asked
  // exactly unless the mode has been lost, and neither found again nor set by a call since.
  lemma {:induction false} ModeStaysAskedIff(states: seq<State>, events: seq<Event>, i: nat)
    requires IsRun(states, events) && i < |states|
    ensures ModeAsked(states[i]) <==> !Lost(states, events, i)
  {
    hide Next, LostNext, Inv;
    if i > 0 {
      ModeStaysAskedIff(states, events, i - 1);
      EngineRunsAtMinimum(states, events, i - 1);
      NextKeepsModeIff(states[i - 1], events[i - 1], states[i]);
      hide ModeAsked;
    }
  }

  lemma NextKeepsModeIff(s: State, e: Event, t: State)
    requires Inv(s) && Next(s, e, t) && (e.Start? ==> e.key !in s.sessions)
    ensures ModeAsked(t) <==> !LostNext(!ModeAsked(s), s, e, t)
  {
    if e.StopClient? {
      RemovalKeepsModeIff(s, e.client, t);
    } else {
      StepKeepsModeIff(s, e, t);
    }
    hide Inv, ModeAsked, NextStart, NextUpdate, NextStop, NextRestart, NextStopClient, LostAfter;
  }

  // The session asks for just what the engine runs at: its interval, and the mode of its request,
  // where any number but those of the two assisted modes is for standalone.
  predicate RunsAs(engine: Engine, o: Options) {
    && engine.On? && engine.minInterval == o.minInterval
    && (engine.mode == MsBased <==> o.mode == GNSS_SUPL_MODE_MSB)
    && (engine.mode == MsAssisted <==> o.mode == GNSS_SUPL_MODE_MSA)
  }

  lemma ConvertIff(o: Options, engine: Engine)
    ensures Convert(o) == engine <==> RunsAs(engine, o)
  {
  }

  // So in every run, while the engine is on and its mode has not been lost, some live session has
  // requested the very interval and mode that it runs at; and if it has been lost, none has.
  lemma EngineRunsAsRequestedIff(states: seq<State>, events: seq<Event>, i: nat)
    requires IsRun(states, events) && i < |states| && states[i].engine.On?
    ensures (exists k :: k in states[i].sessions && RunsAs(states[i].engine, states[i].sessions[k])) <==>
      !Lost(states, events, i)
  {
    var s := states[i];
    ModeStaysAskedIff(states, events, i);
    forall k | k in s.sessions ensures Convert(s.sessions[k]) == s.engine <==> RunsAs(s.engine, s.sessions[k]) {
      ConvertIff(s.sessions[k], s.engine);
    }
    hide Lost, Convert, RunsAs, IsRun;
  }

  // Two sessions of the same interval.  The one whose mode the engine has is stopped, or changes
  // its mode: no engine is called, and the engine is left in a mode that nobody asks for.
  const SHARED: State :=
    State(map[Key(1, 1) := Options(1, 1000, GNSS_SUPL_MODE_MSB), Key(2, 2) := Options(1, 1000, 0)],
          On(1000, MsBased))

  lemma SmallestOfOther()
    ensures Smallest(SHARED.sessions - {Key(1, 1)}, Options(1, 1000, 0)) && |SHARED.sessions| != 1
  {
    assert SHARED.sessions[Key(2, 2)] == Options(1, 1000, 0);
    assert Key(2, 2) in SHARED.sessions - {Key(1, 1)};
    Others(SHARED.sessions, Key(1, 1));
  }

  lemma StopLosesMode(ok: bool)
    ensures var t := SHARED.(sessions := SHARED.sessions - {Key(1, 1)});
      Inv(SHARED) && Asked(SHARED) && Next(SHARED, Stop(Key(1, 1), ok), t) && !ModeAsked(t)
  {
    SmallestOfOther();
    assert SHARED.sessions[Key(1, 1)] == Options(1, 1000, GNSS_SUPL_MODE_MSB);
  }

  lemma UpdateLosesMode(ok: bool)
    ensures var o := Options(1, 1000, 0);
      var t := SHARED.(sessions := SHARED.sessions[Key(1, 1) := o]);
      Inv(SHARED) && Asked(SHARED) && Next(SHARED, Update(Key(1, 1), o, ok), t) && !ModeAsked(t)
  {
    SmallestOfOther();
    assert SHARED.sessions[Key(1, 1)] == Options(1, 1000, GNSS_SUPL_MODE_MSB);
  }

  /* ---------- what a message saves, and where it leaves the engine ---------- */

  // A message takes effect on the sessions exactly unless it needs an engine call and that fails.
  lemma SavesIffAnswered(s: State, e: Event, t: State)
    requires Inv(s) && Next(s, e, t) && !e.StopClient? && (e.Start? ==> e.key !in s.sessions)
    ensures t.sessions ==
      match e
      case Start(key, o, hasCallback, ok) =>
        if hasCallback && o.size > 0 && (CallsEngine(s, e) ==> ok) then s.sessions[key := o] else s.sessions
      case Update(key, o, ok) =>
        if key in s.sessions && o.size > 0 && (CallsEngine(s, e) ==> ok) then s.sessions[key := o] else s.sessions
      case Stop(key, ok) => if CallsEngine(s, e) ==> ok then s.sessions - {key} else s.sessions
      case _ => s.sessions
  {
    if !Succeeds(s, e) {
      StepSaves(s, e, t);
      assert e.Stop? && e.key !in s.sessions ==> s.sessions - {e.key} == s.sessions;
    } else {
      SuccessSaves(s, e, t);
    }
    hide Next, Inv, Below, Moves;
  }

  lemma SuccessSaves(s: State, e: Event, t: State)
    requires Inv(s) && Next(s, e, t) && Succeeds(s, e)
    ensures t.sessions ==
      match e
      case Start(key, o, _, _) => s.sessions[key := o]
      case Update(key, o, _) => s.sessions[key := o]
      case Stop(key, _) => s.sessions - {key}
      case _ => s.sessions
  {
  }

  // Some session of smallest interval is what the engine is aimed at.
  ghost predicate AimedAt(m: Sessions, engine: Engine) { exists small :: Smallest(m, small) && RunsAs(engine, small) }

  // Where an engine call that succeeds leaves the engine: at the new session if that is strictly
  // below the others, and else at one of smallest interval among these; off without any.
  lemma EngineIsAimed(s: State, e: Event, t: State)
    requires Inv(s) && Next(s, e, t) && Succeeds(s, e) && (e.Start? ==> e.key !in s.sessions)
    ensures match e
      case Start(_, o, _, _) => RunsAs(t.engine, o)
      case Update(key, o, _) =>
        if Below(o.minInterval, s.sessions - {key}) then RunsAs(t.engine, o) else AimedAt(s.sessions - {key}, t.engine)
      case Stop(key, _) =>
        if s.sessions - {key} == map[] then t.engine.Off? else AimedAt(s.sessions - {key}, t.engine)
      case _ => AimedAt(s.sessions, t.engine)
  {
    match e {
      case Start(key, o, _, ok) =>
        if s.sessions != map[] {
          var small :| Smallest(s.sessions, small) && (
            if o.minInterval < small.minInterval then Answer(s, ok, s.sessions[key := o], Convert(o), t)
            else t == s.(sessions := s.sessions[key := o]));
          var k :| k in s.sessions && s.sessions[k] == small;
        }
      case Update(key, o, ok) => UpdateIsAimed(s, key, o, ok, t);
      case Stop(key, ok) => StopIsAimed(s, key, ok, t);
      case RestartSessions(ok) =>
        var small :| Smallest(s.sessions, small) && Answer(s, ok, s.sessions, Convert(small), t);
        assert RunsAs(t.engine, small);
      case StopClient(_) =>
      case EngineReset =>
    }
    hide NextUpdate, NextStop, Moves;
  }

  lemma UpdateIsAimed(s: State, key: Key, o: Options, ok: bool, t: State)
    requires key in s.sessions && NextUpdate(s, key, o, ok, t) && Succeeds(s, Update(key, o, ok))
    ensures var left := s.sessions - {key};
      if Below(o.minInterval, left) then RunsAs(t.engine, o) else AimedAt(left, t.engine)
  {
    var (left, saved) := (s.sessions - {key}, s.sessions[key := o]);
    Others(s.sessions, key);
    if |s.sessions| != 1 {
      var small :| Smallest(left, small) && (
        if o.minInterval < small.minInterval then Answer(s, ok, saved, Convert(o), t)
        else if s.sessions[key].minInterval < small.minInterval then Answer(s, ok, saved, Convert(small), t)
        else t == s.(sessions := saved));
      MovesIff(s.sessions, key, o, small);
      var k :| k in left && left[k] == small;
      assert Below(o.minInterval, left) <==> o.minInterval < small.minInterval;
      if o.minInterval >= small.minInterval {
        assert t.engine == Convert(small);
        assert RunsAs(t.engine, small);
      }
    }
  }

  lemma StopIsAimed(s: State, key: Key, ok: bool, t: State)
    requires key in s.sessions && NextStop(s, key, ok, t) && Succeeds(s, Stop(key, ok))
    ensures var left := s.sessions - {key}; if left == map[] then t.engine.Off? else AimedAt(left, t.engine)
  {
    var left := s.sessions - {key};
    Others(s.sessions, key);
    if |s.sessions| != 1 {
      var small :| Smallest(left, small) && (
        if s.sessions[key].minInterval < small.minInterval then Answer(s, ok, left, Convert(small), t)
        else t == s.(sessions := left));
      var k :| k in left && left[k] == small;
      assert RunsAs(t.engine, small);
    }
  }

  // In the removal of a client, nobody else's session changes; each of its own is stopped once, and
  // stays exactly if that needed an engine call that was refused.
  lemma {:induction false} StopsLeave(states: seq<State>, order: seq<Key>, oks: seq<bool>, i: nat, k: Key)
    requires Stops(states, order, oks) && i <= |order|
    ensures k in states[i].sessions <==>
      k in states[0].sessions && forall j :: 0 <= j < i && order[j] == k ==> Refuses(states[j], k, oks[j])
    ensures k in states[i].sessions ==> k in states[0].sessions && states[i].sessions[k] == states[0].sessions[k]
  {
    hide NextStop, Refuses;
    if i > 0 {
      StopsLeave(states, order, oks, i - 1, k);
      StopLeaves(states[i - 1], order[i - 1], oks[i - 1], states[i]);
    }
  }

  ghost predicate Refuses(s: State, key: Key, ok: bool) { CallsEngine(s, Stop(key, ok)) && !ok }

  lemma StopLeaves(s: State, key: Key, ok: bool, t: State)
    requires key in s.sessions && NextStop(s, key, ok, t)
    ensures t.sessions == if Refuses(s, key, ok) then s.sessions else s.sessions - {key}
  {
    if !Succeeds(s, Stop(key, ok)) {
      StopSaves(s, key, ok, t);
    }
  }

  lemma RemovalIsExact(states: seq<State>, order: seq<Key>, oks: seq<bool>, s: State, client: int, t: State, k: Key)
    requires IsRemoval(states, order, oks, s, client, t)
    ensures k in t.sessions ==> k in s.sessions && t.sessions[k] == s.sessions[k]
    ensures k.client != client ==> (k in t.sessions <==> k in s.sessions)
    ensures k.client == client && k in s.sessions ==>
      exists i :: 0 <= i < |order| && order[i] == k && (k in t.sessions <==> Refuses(states[i], k, oks[i])) &&
        forall j :: 0 <= j < |order| && order[j] == k ==> j == i
    ensures (forall i :: 0 <= i < |oks| ==> oks[i]) && k in t.sessions ==> k.client != client
  {
    StopsLeave(states, order, oks, |order|, k);
    if k.client == client && k in s.sessions {
      var i :| 0 <= i < |order| && order[i] == k;
    }
    hide Stops;
  }

  /* ---------- and no message is left without an answer ---------- */

  lemma {:induction false} SomeSmallest(m: Sessions, keys: set<Key>) returns (k: Key)
    requires keys <= m.Keys && keys != {}
    ensures k in keys && forall j :: j in keys ==> m[k].minInterval <= m[j].minInterval
    decreases keys
  {
    k :| k in keys;
    if keys != {k} {
      var j := SomeSmallest(m, keys - {k});
      k := if m[j].minInterval < m[k].minInterval then j else k;
    }
  }

  lemma SmallestExists(m: Sessions) returns (small: Options)
    requires m != map[]
    ensures Smallest(m, small)
  {
    var k := SomeSmallest(m, m.Keys);
    small := m[k];
  }

  lemma SomeStop(s: State, key: Key, ok: bool) returns (t: State)
    requires key in s.sessions
    ensures NextStop(s, key, ok, t)
  {
    var left := s.sessions - {key};
    Others(s.sessions, key);
    if |s.sessions| == 1 {
      t := if ok then State(left, Off) else s;
    } else {
      var small := SmallestExists(left);
      t := if s.sessions[key].minInterval >= small.minInterval then s.(sessions := left)
           else if ok then State(left, Convert(small)) else s;
    }
  }

  lemma SomeUpdate(s: State, key: Key, o: Options, ok: bool) returns (t: State)
    requires key in s.sessions
    ensures NextUpdate(s, key, o, ok, t)
  {
    var (left, saved) := (s.sessions - {key}, s.sessions[key := o]);
    Others(s.sessions, key);
    if |s.sessions| == 1 {
      t := if ok then State(saved, Convert(o)) else s;
    } else {
      var small := SmallestExists(left);
      t := if o.minInterval < small.minInterval then (if ok then State(saved, Convert(o)) else s)
           else if s.sessions[key].minInterval < small.minInterval then (if ok then State(saved, Convert(small)) else s)
           else s.(sessions := saved);
    }
  }

  // Whatever the engine answers, every message but the removal of a client has an outcome in every
  // state; for the removal, the method below finds one.
  lemma MessageIsHandled(s: State, e: Event) returns (t: State)
    requires !e.StopClient?
    ensures Next(s, e, t)
  {
    t := s;
    match e {
      case Start(key, o, hasCallback, ok) =>
        var saved := s.sessions[key := o];
        if hasCallback && o.size > 0 {
          if s.sessions == map[] {
            t := if ok then State(saved, Convert(o)) else s;
          } else {
            var small := SmallestExists(s.sessions);
            t := if o.minInterval >= small.minInterval then s.(sessions := saved)
                 else if ok then State(saved, Convert(o)) else s;
          }
        }
      case Update(key, o, ok) => if key in s.sessions && o.size > 0 { t := SomeUpdate(s, key, o, ok); }
      case Stop(key, ok) => if key in s.sessions { t := SomeStop(s, key, ok); }
      case EngineReset => t := s.(engine := Off);
      case RestartSessions(ok) =>
        if s.sessions != map[] {
          var small := SmallestExists(s.sessions);
          t := if ok then State(s.sessions, Convert(small)) else s;
        }
    }
  }

  /* ---------- the source's object ---------- */

  const UNSET := Options(0, 0, 0)

  // Of the client's sessions, those that are not left have been stopped, each once.
  ghost predicate Walked(order: seq<Key>, m: Sessions, rest: set<Key>, client: int) {
    && (forall i, j :: 0 <= i < j < |order| ==> order[i] != order[j])
    && (forall k :: k in order <==> k in m && k.client == client && k !in rest)
  }

  // From s to t by stops of the client's sessions that are not left.
  ghost predicate Chain(states: seq<State>, order: seq<Key>, oks: seq<bool>, s: State, t: State,
                        rest: set<Key>, client: int) {
    && Stops(states, order, oks) && states[0] == s && states[|order|] == t
    && Walked(order, s.sessions, rest, client)
  }

  lemma ChainStarts(s: State, client: int)
    ensures Chain([s], [], [], s, s, s.sessions.Keys, client)
  {
  }

  lemma ChainStops(states: seq<State>, order: seq<Key>, oks: seq<bool>, s: State, t: State,
                   rest: set<Key>, client: int, k: Key, ok: bool, u: State)
    requires Chain(states, order, oks, s, t, rest, client) && k in rest && k in s.sessions && k.client == client
    requires k in t.sessions && NextStop(t, k, ok, u)
    ensures Chain(states + [u], order + [k], oks + [ok], s, u, rest - {k}, client)
  {
    StopsMore(states, order, oks, k, ok, u);
    WalkedMore(order, s.sessions, rest, client, k);
    hide NextStop, Stops, Walked;
  }

  lemma StopsMore(states: seq<State>, order: seq<Key>, oks: seq<bool>, k: Key, ok: bool, u: State)
    requires Stops(states, order, oks) && k in states[|order|].sessions && NextStop(states[|order|], k, ok, u)
    ensures Stops(states + [u], order + [k], oks + [ok])
  {
    hide NextStop;
  }

  lemma WalkedMore(order: seq<Key>, m: Sessions, rest: set<Key>, client: int, k: Key)
    requires Walked(order, m, rest, client) && k in rest && k in m && k.client == client
    ensures Walked(order + [k], m, rest - {k}, client)
  {
    assert forall x :: x in order + [k] <==> x in order || x == k;
  }

  lemma ChainPasses(states: seq<State>, order: seq<Key>, oks: seq<bool>, s: State, t: State,
                    rest: set<Key>, client: int, k: Key)
    requires Chain(states, order, oks, s, t, rest, client) && k.client != client
    ensures Chain(states, order, oks, s, t, rest - {k}, client)
  {
    hide Stops;
  }

  lemma ChainEnds(states: seq<State>, order: seq<Key>, oks: seq<bool>, s: State, t: State, client: int)
    requires Chain(states, order, oks, s, t, {}, client)
    ensures Next(s, StopClient(client), t)
  {
    assert Covers(order, s.sessions, client);
    assert IsRemoval(states, order, oks, s, client, t);
    hide Stops, Covers;
  }

  class GnssTracking {
    var sessions: Sessions
    var engine: Engine

    ghost function View(): State reads this { State(sessions, engine) }

    constructor ()
      ensures View() == INIT
    {
      sessions, engine := map[], Off;
    }

    // The loop of the multiplexers: the first smallest among the sessions outside `skip`, where a
    // size of zero means that none has been found yet.
    method SmallestOutside(skip: set<Key>) returns (small: Options)
      requires forall k :: k in sessions ==> sessions[k].size > 0
      ensures sessions - skip == map[] ==> small == UNSET
      ensures sessions - skip != map[] ==> Smallest(sessions - skip, small)
    {
      small := UNSET;
      var rest := sessions.Keys;
      ghost var seen: set<Key> := {};
      while rest != {}
        invariant rest + seen == sessions.Keys && rest !! seen
        invariant seen <= skip ==> small == UNSET
        invariant !(seen <= skip) ==> small.size > 0 && exists k :: k in seen - skip && sessions[k] == small
        invariant forall j :: j in seen - skip ==> small.minInterval <= sessions[j].minInterval
        decreases rest
      {
        var k :| k in rest;
        rest, seen := rest - {k}, seen + {k};
        if k !in skip && (small.size == 0 || sessions[k].minInterval < small.minInterval) {
          small := sessions[k];
        }
      }
      assert seen == sessions.Keys;
      if sessions - skip == map[] {
        assert forall k :: k in seen && k !in skip ==> k in sessions - skip;
      }
    }

    method StartEngine(o: Options, ok: bool) returns (success: bool)
      modifies this`engine
      ensures success == ok
      ensures engine == if ok then Convert(o) else old(engine)
    {
      if ok {
        engine := Convert(o);
      }
      success := ok;
    }

    method StopEngine(ok: bool) returns (success: bool)
      modifies this`engine
      ensures success == ok
      ensures engine == if ok then Off else old(engine)
    {
      if ok {
        engine := Off;
      }
      success := ok;
    }

    method StartTracking(key: Key, o: Options, hasCallback: bool, ok: bool) returns (success: bool)
      requires Inv(View())
      modifies this
      ensures Next(old(View()), Start(key, o, hasCallback, ok), View())
      ensures success <==> hasCallback && o.size > 0 && (ok || !Below(o.minInterval, old(sessions)))
      ensures sessions == if success then old(sessions)[key := o] else old(sessions)
    {
      if !hasCallback || o.size == 0 {
        return false;
      }
      success := true;
      if sessions == map[] {
        success := StartEngine(o, ok);
      } else {
        var small := SmallestOutside({});
        assert sessions - {} == sessions;
        if o.minInterval < small.minInterval {
          success := StartEngine(o, ok);
        }
      }
      if success {
        sessions := sessions[key := o];
      }
    }

    method UpdateTracking(key: Key, o: Options, ok: bool) returns (success: bool)
      requires Inv(View())
      modifies this
      ensures Next(old(View()), Update(key, o, ok), View())
      ensures success <==> key in old(sessions) && o.size > 0 && (ok || !Moves(old(sessions), key, o))
      ensures sessions == if success then old(sessions)[key := o] else old(sessions)
    {
      if key !in sessions || o.size == 0 {
        return false;
      }
      Others(sessions, key);
      success := true;
      if |sessions| == 1 {
        success := StartEngine(o, ok);
      } else {
        var small := SmallestOutside({key});
        if o.minInterval < small.minInterval {
          success := StartEngine(o, ok);
        } else if sessions[key].minInterval < small.minInterval {
          success := StartEngine(small, ok);
        }
      }
      if success {
        sessions := sessions[key := o];
      }
    }

    // stopTrackingMultiplex: re-aims or stops the engine, and leaves the erasing to its caller.
    method StopMultiplex(key: Key, ok: bool) returns (success: bool)
      requires Inv(View()) && key in sessions
      modifies this`engine
      ensures NextStop(old(View()), key, ok,
                       if success then View().(sessions := old(sessions) - {key}) else View())
      ensures success <==> ok || !Below(old(sessions)[key].minInterval, old(sessions) - {key})
      ensures !success ==> engine == old(engine)
    {
      Others(sessions, key);
      success := true;
      if |sessions| == 1 {
        success := StopEngine(ok);
      } else {
        var small := SmallestOutside({key});
        if sessions[key].minInterval < small.minInterval {
          success := StartEngine(small, ok);
        }
      }
    }

    method StopTracking(key: Key, ok: bool) returns (success: bool)
      requires Inv(View())
      modifies this
      ensures Next(old(View()), Stop(key, ok), View())
      ensures success ==> sessions == old(sessions) - {key}
      ensures !success ==> View() == old(View())
    {
      if key !in sessions {
        return false;
      }
      success := StopMultiplex(key, ok);
      if success {
        sessions := sessions - {key};
      }
    }

    // Erases from the map it walks.  `answer` is the engine's answer while stopping each session.
    method StopClientSessions(client: int, answer: Key -> bool)
      requires Inv(View())
      modifies this
      ensures Next(old(View()), StopClient(client), View())
      ensures Inv(View())
      ensures sessions.Keys <= old(sessions).Keys
      ensures forall k :: k in sessions ==> sessions[k] == old(sessions)[k]
      ensures forall k :: k in old(sessions) && k.client != client ==> k in sessions
      ensures (forall k :: k in old(sessions) ==> answer(k)) ==> forall k :: k in sessions ==> k.client != client
    {
      var rest := sessions.Keys;
      ghost var (states, order, oks) := ([View()], [], []);
      ChainStarts(View(), client);
      while rest != {}
        invariant Inv(View())
        invariant rest <= sessions.Keys <= old(sessions).Keys
        invariant forall k :: k in sessions ==> sessions[k] == old(sessions)[k]
        invariant forall k :: k in old(sessions) && k.client != client ==> k in sessions
        invariant (forall k :: k in old(sessions) ==> answer(k)) ==>
                    forall k :: k in sessions && k.client == client ==> k in rest
        invariant Chain(states, order, oks, old(View()), View(), rest, client)
        decreases rest
      {
        hide Inv, Chain, NextStop;
        var k :| k in rest;
        if k.client == client {
          ghost var before := View();
          var _ := StopOne(k, answer(k));
          ChainStops(states, order, oks, old(View()), before, rest, client, k, answer(k), View());
          states, order, oks := states + [View()], order + [k], oks + [answer(k)];
        } else {
          ChainPasses(states, order, oks, old(View()), View(), rest, client, k);
        }
        rest := rest - {k};
      }
      ChainEnds(states, order, oks, old(View()), View(), client);
      hide Next, Inv;
    }

    // One turn of that loop.
    method StopOne(k: Key, ok: bool) returns (success: bool)
      requires Inv(View()) && k in sessions
      modifies this
      ensures Inv(View())
      ensures NextStop(old(View()), k, ok, View())
      ensures sessions == (if success then old(sessions) - {k} else old(sessions)) && (ok ==> success)
    {
      ghost var before := View();
      success := StopMultiplex(k, ok);
      if success {
        sessions := sessions - {k};
      }
      StopKeeps(before, k, ok, View());
      hide Inv, NextStop;
    }

    method ResetEngine()
      modifies this
      ensures Next(old(View()), EngineReset, View())
    {
      engine := Off;
    }

    method Restart(ok: bool)
      requires Inv(View())
      modifies this
      ensures Next(old(View()), RestartSessions(ok), View())
    {
      if sessions == map[] {
        return;
      }
      var small := SmallestOutside({});
      assert sessions - {} == sessions;
      var _ := StartEngine(small, ok);
    }
  }
}
