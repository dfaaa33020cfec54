/**
 The subscription index of gps/core/SystemStatusOsObserver.cpp: which client wants which data item,
 kept in both directions; the items announced to the framework; and what clients are sent.

 `Step` is one message; `SystemStatusOsObserver` is the source's object.
 */
module OsObserver {
  import opened SetMap
  import opened Wrappers

  datatype Client = Client(id: int)

  datatype Item = Item(id: int)

  type Value = int

  // A received item.  SystemStatus may decline it, a copy for the cache may fail to be created, and
  // copying over the cached one says whether that changed.
  datatype Datum = Datum(id: Item, value: Value, handled: bool, created: bool, changed: bool)

  // `hasFramework`: a subscription object is set.  `announced` is what that object has been asked
  // to subscribe to, by either of its calls, and not to unsubscribe from.
  datatype State = State(
    clientToItems: map<Client, set<Item>>, itemToClients: map<Item, set<Client>>,
    hasFramework: bool, announced: set<Item>, cache: map<Item, Value>)

  datatype Event =
    | SetSubscriptionObj(other: bool)
    | Subscribe(items: set<Item>, client: Option<Client>)
    | UpdateSubscription(items: set<Item>, client: Option<Client>)
    | Unsubscribe(items: set<Item>, client: Option<Client>)
    | UnsubscribeAll(client: Option<Client>)
    | Notify(data: seq<Option<Datum>>)

  // What each client is sent.
  type Delivery = map<Client, map<Item, Value>>

  const INIT := State(map[], map[], false, {}, map[])

  function Restrict(cache: map<Item, Value>, items: set<Item>): map<Item, Value> {
    map i | i in items && i in cache :: cache[i]
  }

  // sendCachedDataItems: nothing is sent when nothing is cached.
  function Send(cache: map<Item, Value>, items: set<Item>, client: Client): Delivery {
    var sent := Restrict(cache, items);
    if sent == map[] then map[] else map[client := sent]
  }

  function Announce(s: State, come: set<Item>, gone: set<Item>): set<Item> {
    if s.hasFramework then s.announced + come - gone else s.announced
  }

  function OnSubscribe(s: State, items: set<Item>, client: Client): State {
    s.(itemToClients := Added(s.itemToClients, items, {client}),
       clientToItems := Added(s.clientToItems, {client}, items),
       announced := Announce(s, NewKeys(s.itemToClients, items, {client}), {}))
  }

  function OnUpdate(s: State, items: set<Item>, client: Client): State {
    var cur := Get(s.clientToItems, client);
    var trimmed := Trimmed(s.itemToClients, cur * items, {client});
    s.(clientToItems := Updated(s.clientToItems, client, items),
       itemToClients := Added(trimmed, items - cur, {client}),
       announced := Announce(s, NewKeys(trimmed, items - cur, {client}),
                             GoneKeys(s.itemToClients, cur * items, {client})))
  }

  function OnUnsubscribe(s: State, items: set<Item>, client: Client): State {
    var unused := GoneVals(s.clientToItems, {client}, items);
    s.(clientToItems := Trimmed(s.clientToItems, {client}, items),
       itemToClients := Trimmed(s.itemToClients, unused, {client}),
       announced := Announce(s, {}, GoneKeys(s.itemToClients, unused, {client})))
  }

  function OnUnsubscribeAll(s: State, client: Client): State {
    var items := Get(s.clientToItems, client);
    if items == {} then s
    else
      s.(clientToItems := s.clientToItems - {client},
         itemToClients := Trimmed(s.itemToClients, items, {client}),
         announced := Announce(s, {}, GoneKeys(s.itemToClients, items, {client})))
  }

  predicate Changes(cache: map<Item, Value>, d: Option<Datum>) {
    d.Some? && d.value.handled && if d.value.id in cache then d.value.changed else d.value.created
  }

  // updateCache, over the first k of the data; and the items that it changed.
  function CacheAfter(cache: map<Item, Value>, data: seq<Option<Datum>>, k: nat): map<Item, Value>
    requires k <= |data|
  {
    if k == 0 then cache
    else
      var before := CacheAfter(cache, data, k - 1);
      if Changes(before, data[k - 1]) then before[data[k - 1].value.id := data[k - 1].value.value] else before
  }

  function Sent(cache: map<Item, Value>, data: seq<Option<Datum>>, k: nat): set<Item>
    requires k <= |data|
  {
    if k == 0 then {}
    else
      Sent(cache, data, k - 1) +
      if Changes(CacheAfter(cache, data, k - 1), data[k - 1]) then {data[k - 1].value.id} else {}
  }

  function ToClients(itemToClients: map<Item, set<Client>>, sent: set<Item>): set<Client> {
    set i, c | i in sent && i in itemToClients && c in itemToClients[i] :: c
  }

  // To these clients, of their items those that are sent.
  function Deliveries(clientToItems: map<Client, set<Item>>, clients: set<Client>, sent: set<Item>,
                      cache: map<Item, Value>): Delivery {
    map c | c in clients && Restrict(cache, Get(clientToItems, c) * sent) != map[] ::
      Restrict(cache, Get(clientToItems, c) * sent)
  }

  function OnNotify(s: State, data: seq<Option<Datum>>): (State, Delivery) {
    var cache := CacheAfter(s.cache, data, |data|);
    var sent := Sent(s.cache, data, |data|);
    (s.(cache := cache), Deliveries(s.clientToItems, ToClients(s.itemToClients, sent), sent, cache))
  }

  function Step(s: State, e: Event): (State, Delivery) {
    match e
    case SetSubscriptionObj(other) =>
      (s.(hasFramework := true, announced := (if other then {} else s.announced) + s.itemToClients.Keys), map[])
    case Subscribe(items, client) =>
      if items == {} || client.None? then (s, map[])
      else (OnSubscribe(s, items, client.value), Send(s.cache, items, client.value))
    case UpdateSubscription(items, client) =>
      if items == {} || client.None? then (s, map[])
      else
        (OnUpdate(s, items, client.value),
         Send(s.cache, items - Get(s.clientToItems, client.value), client.value))
    case Unsubscribe(items, client) =>
      if items == {} || client.None? then (s, map[]) else (OnUnsubscribe(s, items, client.value), map[])
    case UnsubscribeAll(client) =>
      if client.None? then (s, map[]) else (OnUnsubscribeAll(s, client.value), map[])
    case Notify(data) => OnNotify(s, data)
  }

  /* ---------- the two maps ---------- */

  ghost predicate Inverse(s: State) {
    forall c, i :: Has(s.clientToItems, c, i) <==> Has(s.itemToClients, i, c)
  }

  lemma SubscribeKeepsInverse(s: State, items: set<Item>, client: Client)
    requires Inverse(s)
    ensures Inverse(OnSubscribe(s, items, client))
  {
    hide Has, Added;
    var t := OnSubscribe(s, items, client);
    forall c, i ensures Has(t.clientToItems, c, i) <==> Has(t.itemToClients, i, c) {
      AddedHas(s.clientToItems, {client}, items, c, i);
      AddedHas(s.itemToClients, items, {client}, i, c);
    }
  }

  lemma UnsubscribeKeepsInverse(s: State, items: set<Item>, client: Client)
    requires Inverse(s)
    ensures Inverse(OnUnsubscribe(s, items, client))
  {
    var t := OnUnsubscribe(s, items, client);
    var unused := GoneVals(s.clientToItems, {client}, items);
    hide Trimmed;
    forall c, i ensures Has(t.clientToItems, c, i) <==> Has(t.itemToClients, i, c) {
      TrimmedHas(s.clientToItems, {client}, items, c, i);
      TrimmedHas(s.itemToClients, unused, {client}, i, c);
      assert c == client ==> (i in unused <==> Has(s.clientToItems, c, i) && i in items);
    }
  }

  lemma UnsubscribeAllKeepsInverse(s: State, client: Client)
    requires Inverse(s)
    ensures Inverse(OnUnsubscribeAll(s, client))
  {
    var t := OnUnsubscribeAll(s, client);
    hide Trimmed;
    forall c, i ensures Has(t.clientToItems, c, i) <==> Has(t.itemToClients, i, c) {
      TrimmedHas(s.itemToClients, Get(s.clientToItems, client), {client}, i, c);
    }
  }

  // Because update() returns the items that stay, an update leaves the client with the new items
  // in one map, and with the difference of the old and the new ones in the other.
  lemma UpdateLeavesDifference(s: State, items: set<Item>, client: Client, c: Client, i: Item)
    requires Inverse(s) && items != {}
    ensures var (t, cur) := (OnUpdate(s, items, client), Get(s.clientToItems, client));
      && (Has(t.clientToItems, c, i) <==> if c == client then i in items else Has(s.clientToItems, c, i))
      && (Has(t.itemToClients, i, c) <==>
            if c == client then (i in cur) != (i in items) else Has(s.itemToClients, i, c))
  {
    var cur := Get(s.clientToItems, client);
    TrimmedHas(s.itemToClients, cur * items, {client}, i, c);
    AddedHas(Trimmed(s.itemToClients, cur * items, {client}), items - cur, {client}, i, c);
    assert Has(s.clientToItems, client, i) <==> i in cur;
    hide Trimmed, Added;
  }

  lemma UpdateKeepsInverseIff(s: State, items: set<Item>, client: Client)
    requires Inverse(s) && items != {}
    ensures Inverse(OnUpdate(s, items, client)) <==> Get(s.clientToItems, client) == {}
  {
    var (t, cur) := (OnUpdate(s, items, client), Get(s.clientToItems, client));
    hide OnUpdate, Has;
    forall c, i
      ensures (Has(t.clientToItems, c, i) <==> Has(t.itemToClients, i, c)) <==> !(c == client && i in cur)
    {
      UpdateLeavesDifference(s, items, client, c, i);
      assert Has(s.clientToItems, c, i) <==> Has(s.itemToClients, i, c);
    }
    if cur != {} {
      var i :| i in cur;
      assert !(Has(t.clientToItems, client, i) <==> Has(t.itemToClients, i, client));
    }
  }

  predicate Effective(e: Event) {
    match e
    case SetSubscriptionObj(_) => true
    case Notify(_) => true
    case UnsubscribeAll(client) => client.Some?
    case Subscribe(items, client) => items != {} && client.Some?
    case UpdateSubscription(items, client) => items != {} && client.Some?
    case Unsubscribe(items, client) => items != {} && client.Some?
  }

  // An update by a client that has items already.
  predicate Breaks(s: State, e: Event) {
    e.UpdateSubscription? && Effective(e) && Get(s.clientToItems, e.client.value) != {}
  }

  // The maps stay inverse relations in every step but the update of a client that has items: there
  // they never do.
  lemma StepKeepsInverseIff(s: State, e: Event)
    requires Inverse(s)
    ensures Inverse(Step(s, e).0) <==> !Breaks(s, e)
  {
    if Effective(e) {
      match e {
        case Subscribe(items, client) => SubscribeKeepsInverse(s, items, client.value);
        case UpdateSubscription(items, client) => UpdateKeepsInverseIff(s, items, client.value);
        case Unsubscribe(items, client) => UnsubscribeKeepsInverse(s, items, client.value);
        case UnsubscribeAll(client) => UnsubscribeAllKeepsInverse(s, client.value);
        case _ =>
      }
    }
    hide OnSubscribe, OnUpdate, OnUnsubscribe, OnUnsubscribeAll, Has;
  }

  /* ---------- what the framework is told ---------- */

  // No key is left without values, and once a subscription object is set, it has been told of just
  // the items that have clients.
  ghost predicate Inv(s: State) {
    && NoEmpty(s.clientToItems) && NoEmpty(s.itemToClients)
    && s.announced == if s.hasFramework then s.itemToClients.Keys else {}
  }

  lemma SubscribeKeepsInv(s: State, items: set<Item>, client: Client)
    requires Inv(s)
    ensures Inv(OnSubscribe(s, items, client))
  {
  }

  // What is new was not there before, so it is not among what is gone.
  lemma UpdateKeepsInv(s: State, items: set<Item>, client: Client)
    requires Inv(s) && items != {}
    ensures Inv(OnUpdate(s, items, client))
  {
    var cur := Get(s.clientToItems, client);
    var trimmed := Trimmed(s.itemToClients, cur * items, {client});
    ReportsKeys(s.itemToClients, cur * items, {client});
    ReportsKeys(trimmed, items - cur, {client});
    assert GoneKeys(s.itemToClients, cur * items, {client}) <= cur;
    assert NewKeys(trimmed, items - cur, {client}) !! cur;
    hide Trimmed, Added, NewKeys, GoneKeys;
  }

  lemma UnsubscribeKeepsInv(s: State, items: set<Item>, client: Client)
    requires Inv(s)
    ensures Inv(OnUnsubscribe(s, items, client)) && Inv(OnUnsubscribeAll(s, client))
  {
    ReportsKeys(s.clientToItems, {client}, items);
    ReportsKeys(s.itemToClients, GoneVals(s.clientToItems, {client}, items), {client});
    ReportsKeys(s.itemToClients, Get(s.clientToItems, client), {client});
    hide Trimmed, Added, GoneKeys;
  }

  lemma StepKeepsInv(s: State, e: Event)
    requires Inv(s)
    ensures Inv(Step(s, e).0)
  {
    if Effective(e) {
      match e {
        case Subscribe(items, client) => SubscribeKeepsInv(s, items, client.value);
        case UpdateSubscription(items, client) => UpdateKeepsInv(s, items, client.value);
        case Unsubscribe(items, client) => UnsubscribeKeepsInv(s, items, client.value);
        case UnsubscribeAll(client) => UnsubscribeKeepsInv(s, {}, client.value);
        case _ =>
      }
    }
    hide OnSubscribe, OnUpdate, OnUnsubscribe, OnUnsubscribeAll, NoEmpty;
  }

  ghost function After(run: seq<Event>, k: nat): State
    requires k <= |run|
  {
    if k == 0 then INIT else Step(After(run, k - 1), run[k - 1]).0
  }

  lemma {:induction false} AnnouncedIsWanted(run: seq<Event>, k: nat)
    requires k <= |run|
    ensures Inv(After(run, k))
  {
    hide Step;
    if k > 0 {
      AnnouncedIsWanted(run, k - 1);
      StepKeepsInv(After(run, k - 1), run[k - 1]);
    }
  }

  // The maps are inverse relations in every run where no client with items updates them.
  lemma {:induction false} MapsAreInverse(run: seq<Event>, k: nat)
    requires k <= |run| && forall j :: 0 <= j < k ==> !Breaks(After(run, j), run[j])
    ensures Inverse(After(run, k))
  {
    hide Step, Breaks;
    if k > 0 {
      MapsAreInverse(run, k - 1);
      StepKeepsInverseIff(After(run, k - 1), run[k - 1]);
    }
  }

  /* ---------- what the two maps hold ---------- */

  // What each message asks for this client, by its own messages: more items, other items, fewer
  // items, or none.
  ghost function WantedAfter(wanted: set<Item>, e: Event, c: Client): set<Item> {
    if !Names(e, c) then wanted
    else
      match e
      case Subscribe(items, _) => wanted + items
      case UpdateSubscription(items, _) => if items == {} then wanted else items
      case Unsubscribe(items, _) => wanted - items
      case _ => {}
  }

  ghost function Wanted(run: seq<Event>, k: nat, c: Client): set<Item>
    requires k <= |run|
  {
    if k == 0 then {} else WantedAfter(Wanted(run, k - 1, c), run[k - 1], c)
  }

  lemma StepWants(s: State, e: Event, c: Client)
    ensures Get(Step(s, e).0.clientToItems, c) == WantedAfter(Get(s.clientToItems, c), e, c)
  {
    hide CacheAfter, Sent;
  }

  // In every run, updates included, a client is down for just the items that its own messages
  // ask for.
  lemma {:induction false} ItemsAreWanted(run: seq<Event>, k: nat, c: Client)
    requires k <= |run|
    ensures Get(After(run, k).clientToItems, c) == Wanted(run, k, c)
  {
    hide Step, WantedAfter;
    if k > 0 {
      ItemsAreWanted(run, k - 1, c);
      StepWants(After(run, k - 1), run[k - 1], c);
    }
  }

  // Whether the item lists the client after the message.  An update takes the client from the items
  // that stay, where it should take it from those that go.
  ghost predicate ListsAfter(listed: bool, wanted: set<Item>, e: Event, c: Client, i: Item) {
    if !Names(e, c) then listed
    else
      match e
      case Subscribe(items, _) => listed || i in items
      case UpdateSubscription(items, _) => if i in items then i !in wanted else listed
      case Unsubscribe(items, _) => listed && !(i in items && i in wanted)
      case _ => listed && i !in wanted
  }

  ghost predicate Lists(run: seq<Event>, k: nat, c: Client, i: Item)
    requires k <= |run|
  {
    k > 0 && ListsAfter(Lists(run, k - 1, c, i), Wanted(run, k - 1, c), run[k - 1], c, i)
  }

  lemma StepLists(s: State, e: Event, c: Client, i: Item)
    ensures Has(Step(s, e).0.itemToClients, i, c) <==>
      ListsAfter(Has(s.itemToClients, i, c), Get(s.clientToItems, c), e, c, i)
  {
    match e {
      case UpdateSubscription(items, client) =>
        if client.Some? {
          var cur := Get(s.clientToItems, client.value);
          TrimmedHas(s.itemToClients, cur * items, {client.value}, i, c);
          AddedHas(Trimmed(s.itemToClients, cur * items, {client.value}), items - cur, {client.value}, i, c);
        }
      case _ =>
    }
    hide CacheAfter, Sent;
  }

  // So the other map, too, holds in every run just what the messages make of it.
  lemma {:induction false} ListingIsExact(run: seq<Event>, k: nat, c: Client, i: Item)
    requires k <= |run|
    ensures Has(After(run, k).itemToClients, i, c) <==> Lists(run, k, c, i)
  {
    hide Step, ListsAfter;
    if k > 0 {
      ListingIsExact(run, k - 1, c, i);
      ItemsAreWanted(run, k - 1, c);
      StepLists(After(run, k - 1), run[k - 1], c, i);
    }
  }

  ghost predicate Announces(run: seq<Event>, k: nat)
    requires k <= |run|
  {
    exists j :: 0 <= j < k && run[j].SetSubscriptionObj?
  }

  ghost predicate AnyLists(run: seq<Event>, k: nat, i: Item)
    requires k <= |run|
  {
    exists c :: Lists(run, k, c, i)
  }

  // The framework is told of just the items that list some client, from the first time that a
  // subscription object is set.
  lemma AnnouncedIsListed(run: seq<Event>, k: nat, i: Item)
    requires k <= |run|
    ensures i in After(run, k).announced <==> Announces(run, k) && AnyLists(run, k, i)
  {
    hide Lists, After, Step, Announces;
    AnnouncedIsWanted(run, k);
    FrameworkIffSet(run, k);
    forall c ensures Has(After(run, k).itemToClients, i, c) <==> Lists(run, k, c, i) {
      ListingIsExact(run, k, c, i);
    }
    var m := After(run, k).itemToClients;
    assert i in m <==> AnyLists(run, k, i) by {
      if i in m {
        NotEmpty(m[i]);
        var c :| c in m[i];
        assert Has(m, i, c);
      }
    }
  }

  lemma NotEmpty<T>(s: set<T>)
    ensures s != {} <==> exists x :: x in s
  {
  }

  lemma {:induction false} FrameworkIffSet(run: seq<Event>, k: nat)
    requires k <= |run|
    ensures After(run, k).hasFramework <==> Announces(run, k)
  {
    if k > 0 {
      FrameworkIffSet(run, k - 1);
      StepSets(After(run, k - 1), run[k - 1]);
      assert run[k - 1].SetSubscriptionObj? ==> Announces(run, k);
    }
    hide Step;
  }

  lemma StepSets(s: State, e: Event)
    ensures Step(s, e).0.hasFramework <==> s.hasFramework || e.SetSubscriptionObj?
  {
  }

  /* ---------- what the clients are sent ---------- */

  lemma {:induction false} SentIsCached(cache: map<Item, Value>, data: seq<Option<Datum>>, k: nat)
    requires k <= |data|
    ensures Sent(cache, data, k) <= CacheAfter(cache, data, k).Keys
    ensures cache.Keys <= CacheAfter(cache, data, k).Keys
    ensures forall i :: i in CacheAfter(cache, data, k) && i !in Sent(cache, data, k) ==>
      i in cache && CacheAfter(cache, data, k)[i] == cache[i]
  {
    if k > 0 {
      SentIsCached(cache, data, k - 1);
    }
  }

  // This entry of a batch is about the item, and SystemStatus takes it.
  predicate Brings(d: Option<Datum>, i: Item) { d.Some? && d.value.id == i && d.value.handled }

  // The item is in the cache before entry j: it was there, or an entry before has put it there.
  ghost predicate CachedBefore(cache: map<Item, Value>, data: seq<Option<Datum>>, j: nat, i: Item)
    requires j <= |data|
  {
    i in cache || exists l :: 0 <= l < j && Brings(data[l], i) && data[l].value.created
  }

  ghost predicate ChangesItem(cache: map<Item, Value>, data: seq<Option<Datum>>, j: int, i: Item)
    requires 0 <= j < |data|
  {
    Brings(data[j], i) && if CachedBefore(cache, data, j, i) then data[j].value.changed else data[j].value.created
  }

  // The items that a batch changes, in whatever order its entries come: an entry changes a cached
  // item if it says so, and any other if a copy of it can be made.
  lemma {:induction false} SentIff(cache: map<Item, Value>, data: seq<Option<Datum>>, k: nat, i: Item)
    requires k <= |data|
    ensures i in CacheAfter(cache, data, k) <==> CachedBefore(cache, data, k, i)
    ensures i in Sent(cache, data, k) <==> exists j :: 0 <= j < k && ChangesItem(cache, data, j, i)
  {
    if k > 0 {
      SentIff(cache, data, k - 1, i);
      assert i in Sent(cache, data, k) <==> i in Sent(cache, data, k - 1) || ChangesItem(cache, data, k - 1, i);
      assert CachedBefore(cache, data, k, i) <==>
        CachedBefore(cache, data, k - 1, i) || (Brings(data[k - 1], i) && data[k - 1].value.created);
      hide ChangesItem, CachedBefore;
    }
  }

  // The value is that of the last entry that changed the item.
  lemma {:induction false} LastChangeIsCached(cache: map<Item, Value>, data: seq<Option<Datum>>, j: nat, k: nat,
                                              i: Item)
    requires j < k <= |data| && ChangesItem(cache, data, j, i)
    requires forall l :: j < l < k ==> !ChangesItem(cache, data, l, i)
    ensures i in CacheAfter(cache, data, k) && CacheAfter(cache, data, k)[i] == data[j].value.value
  {
    SentIff(cache, data, k - 1, i);
    if j + 1 < k {
      LastChangeIsCached(cache, data, j, k - 1, i);
      assert !ChangesItem(cache, data, k - 1, i);
    }
    hide CachedBefore, Sent;
  }

  // What the client asks for by a message: all the items of a subscription, and of an update those
  // that it was not down for.
  ghost function AskedNow(wanted: set<Item>, e: Event, c: Client): set<Item> {
    if !Names(e, c) then {}
    else
      match e
      case Subscribe(items, _) => items
      case UpdateSubscription(items, _) => items - wanted
      case _ => {}
  }

  // In every run, outside of batches: a client is sent something exactly if an item that its own
  // message asks for is cached, and then just the cached ones, at their cached values; and the
  // cache stays as it is.
  lemma CachedPartIsSent(run: seq<Event>, k: nat, c: Client)
    requires k < |run| && !run[k].Notify?
    ensures var (cache, d) := (After(run, k).cache, Step(After(run, k), run[k]).1);
      var mine := AskedNow(Wanted(run, k, c), run[k], c) * cache.Keys;
      && (c in d <==> mine != {}) && (c in d ==> d[c].Keys == mine)
      && (c in d ==> forall i :: i in d[c] ==> d[c][i] == cache[i])
      && After(run, k + 1).cache == cache
  {
    ItemsAreWanted(run, k, c);
    SendsCached(After(run, k), run[k], c);
    hide Step, AskedNow;
  }

  lemma SendsCached(s: State, e: Event, c: Client)
    requires !e.Notify?
    ensures var (t, d) := Step(s, e);
      var mine := AskedNow(Get(s.clientToItems, c), e, c) * s.cache.Keys;
      && (c in d <==> mine != {}) && (c in d ==> d[c].Keys == mine)
      && (c in d ==> forall i :: i in d[c] ==> d[c][i] == s.cache[i])
      && t.cache == s.cache
  {
    var mine := AskedNow(Get(s.clientToItems, c), e, c);
    assert Restrict(s.cache, mine).Keys == mine * s.cache.Keys;
    assert mine * s.cache.Keys == {} <==> Restrict(s.cache, mine) == map[];
    hide OnSubscribe, OnUpdate, OnUnsubscribe, OnUnsubscribeAll;
  }

  // A batch, with or without null entries, reaches the client exactly if it wants an item that
  // changed, and brings it just its own changed items, at their new values.
  ghost predicate Exact(s: State, data: seq<Option<Datum>>, c: Client) {
    var (cache, d, sent) := (OnNotify(s, data).0.cache, OnNotify(s, data).1, Sent(s.cache, data, |data|));
    && (c in d <==> exists i :: i in sent && Has(s.clientToItems, c, i))
    && (c in d ==> d[c].Keys == Get(s.clientToItems, c) * sent)
    && (c in d ==> forall i :: i in d[c] ==> i in cache && d[c][i] == cache[i])
  }

  // In any state whatever, a batch reaches a client exactly if it wants a changed item and some
  // changed item lists it; and it brings just the changed items that it wants, at their new values.
  lemma BatchReachesIff(s: State, data: seq<Option<Datum>>, c: Client)
    ensures var (cache, d, sent) := (OnNotify(s, data).0.cache, OnNotify(s, data).1, Sent(s.cache, data, |data|));
      && (c in d <==>
            && (exists i :: i in sent && Has(s.clientToItems, c, i))
            && exists i :: i in sent && Has(s.itemToClients, i, c))
      && (c in d ==> d[c].Keys == Get(s.clientToItems, c) * sent)
      && (c in d ==> forall i :: i in d[c] ==> i in cache && d[c][i] == cache[i])
  {
    var (cache, sent) := (CacheAfter(s.cache, data, |data|), Sent(s.cache, data, |data|));
    SentIsCached(s.cache, data, |data|);
    var mine := Restrict(cache, Get(s.clientToItems, c) * sent);
    assert mine.Keys == Get(s.clientToItems, c) * sent;
    if i :| i in sent && Has(s.clientToItems, c, i) {
      assert i in mine;
    }
    assert c in ToClients(s.itemToClients, sent) <==> exists i :: i in sent && Has(s.itemToClients, i, c);
    hide CacheAfter, Sent, ToClients;
  }

  // So it is delivered exactly unless the client wants a changed item and no changed item lists it.
  lemma BatchIsExactIff(s: State, data: seq<Option<Datum>>, c: Client)
    ensures var sent := Sent(s.cache, data, |data|);
      Exact(s, data, c) <==>
      ((exists i :: i in sent && Has(s.clientToItems, c, i)) ==> exists i :: i in sent && Has(s.itemToClients, i, c))
  {
    BatchReachesIff(s, data, c);
    hide OnNotify, Sent;
  }

  // Every item that the client has lists it.
  ghost predicate Listed(s: State, c: Client) {
    forall i :: Has(s.clientToItems, c, i) ==> Has(s.itemToClients, i, c)
  }

  lemma NotifyDeliversExactly(s: State, data: seq<Option<Datum>>, c: Client)
    requires Listed(s, c)
    ensures Exact(s, data, c)
  {
    BatchIsExactIff(s, data, c);
    hide Exact, Sent;
  }

  // In any state whatever, all batches are delivered exactly to a client, exactly if every item it
  // has lists it; and that is so for every client while the maps are inverse.
  lemma AllBatchesAreExactIff(s: State, c: Client)
    ensures (forall data :: Exact(s, data, c)) <==> Listed(s, c)
    ensures Inverse(s) ==> Listed(s, c)
  {
    if Listed(s, c) {
      forall data ensures Exact(s, data, c) {
        NotifyDeliversExactly(s, data, c);
      }
    } else {
      var i :| Has(s.clientToItems, c, i) && !Has(s.itemToClients, i, c);
      var data := [Some(Datum(i, 0, true, true, true))];
      assert Sent(s.cache, data, 0) == {} && Sent(s.cache, data, 1) == {i};
      BatchIsExactIff(s, data, c);
      assert !Exact(s, data, c);
    }
    hide Exact, Sent;
  }

  // After an update in a state where the maps are inverse, a batch is delivered exactly to the
  // client, unless an item it has now changed, and none that the update added or gave up.
  lemma UpdateDeliversExactlyIff(s: State, items: set<Item>, client: Client, data: seq<Option<Datum>>)
    requires Inverse(s) && items != {}
    ensures var (t, cur, sent) :=
        (OnUpdate(s, items, client), Get(s.clientToItems, client), Sent(s.cache, data, |data|));
      Exact(t, data, client) <==> (sent * items != {} ==> sent * ((cur - items) + (items - cur)) != {})
  {
    var (t, cur) := (OnUpdate(s, items, client), Get(s.clientToItems, client));
    var sent := Sent(s.cache, data, |data|);
    var differs := (cur - items) + (items - cur);
    hide Exact, Sent, OnUpdate, Has;
    BatchIsExactIff(t, data, client);
    forall i
      ensures (Has(t.clientToItems, client, i) <==> i in items) && (Has(t.itemToClients, i, client) <==> i in differs) {
      UpdateLeavesDifference(s, items, client, client, i);
    }
    if i :| i in sent * items {
      assert i in sent && Has(t.clientToItems, client, i);
    }
    if i :| i in sent * differs {
      assert i in sent && Has(t.itemToClients, i, client);
    }
    if i :| i in sent && Has(t.clientToItems, client, i) {
      assert i in sent * items;
    }
    if i :| i in sent && Has(t.itemToClients, i, client) {
      assert i in sent * differs;
    }
  }

  // No item has this client.
  ghost predicate Unlisted(s: State, client: Client) {
    forall i :: i in s.itemToClients ==> client !in s.itemToClients[i]
  }

  predicate Names(e: Event, client: Client) {
    match e
    case SetSubscriptionObj(_) => false
    case Notify(_) => false
    case _ => e.client == Some(client)
  }

  // Messages of other clients do not list it, and nothing is sent to it.
  lemma StaysUnlisted(s: State, e: Event, client: Client)
    requires Unlisted(s, client) && !Names(e, client)
    ensures Unlisted(Step(s, e).0, client) && client !in Step(s, e).1
    ensures Get(Step(s, e).0.clientToItems, client) == Get(s.clientToItems, client)
  {
    hide CacheAfter, Sent;
  }

  ghost function From(s: State, run: seq<Event>, k: nat): State
    requires k <= |run|
  {
    if k == 0 then s else Step(From(s, run, k - 1), run[k - 1]).0
  }

  lemma {:induction false} UnlistedHearsNothing(s: State, run: seq<Event>, k: nat, client: Client)
    requires Unlisted(s, client) && k <= |run|
    requires forall j :: 0 <= j < |run| ==> !Names(run[j], client)
    ensures Unlisted(From(s, run, k), client)
    ensures Get(From(s, run, k).clientToItems, client) == Get(s.clientToItems, client)
    ensures k < |run| ==> client !in Step(From(s, run, k), run[k]).1
  {
    hide Step, Unlisted, Names;
    if k > 0 {
      UnlistedHearsNothing(s, run, k - 1, client);
      StaysUnlisted(From(s, run, k - 1), run[k - 1], client);
    }
    if k < |run| {
      StaysUnlisted(From(s, run, k), run[k], client);
    }
  }

  lemma RepeatedUpdateUnlists(s: State, items: set<Item>, client: Client)
    requires Inverse(s) && items != {} && Get(s.clientToItems, client) == items
    ensures var t := OnUpdate(s, items, client);
      Unlisted(t, client) && Get(t.clientToItems, client) == items
  {
    var t := OnUpdate(s, items, client);
    forall i | i in t.itemToClients ensures client !in t.itemToClients[i] {
      UpdateLeavesDifference(s, items, client, client, i);
    }
  }

  // So a client that sends the same update again is still down for its items, and is sent none of
  // them in any run of messages after that, until one names it again.
  lemma RepeatedUpdateSilencesClient(s: State, items: set<Item>, client: Client, run: seq<Event>, k: nat)
    requires Inverse(s) && items != {} && Get(s.clientToItems, client) == items
    requires k < |run| && forall j :: 0 <= j < |run| ==> !Names(run[j], client)
    ensures var t := OnUpdate(s, items, client);
      Get(From(t, run, k).clientToItems, client) == items && client !in Step(From(t, run, k), run[k]).1
  {
    RepeatedUpdateUnlists(s, items, client);
    UnlistedHearsNothing(OnUpdate(s, items, client), run, k, client);
    hide OnUpdate, Step, From, Unlisted;
  }

  // While the maps are inverse, that happens to a client exactly if it has no items.
  lemma UnlistedIff(s: State, client: Client)
    requires Inverse(s)
    ensures Unlisted(s, client) <==> Get(s.clientToItems, client) == {}
  {
    if i :| i in Get(s.clientToItems, client) {
      assert Has(s.clientToItems, client, i) && Has(s.itemToClients, i, client);
    }
    if i :| i in s.itemToClients && client in s.itemToClients[i] {
      assert Has(s.itemToClients, i, client) && Has(s.clientToItems, client, i);
    }
  }

  /* ---------- the source's object ---------- */

  class SystemStatusOsObserver {
    const clientToItems: LocUnorderedSetMap<Client, Item>
    const itemToClients: LocUnorderedSetMap<Item, Client>
    var hasFramework: bool
    var announced: set<Item>
    var cache: map<Item, Value>

    ghost function View(): State
      reads this, clientToItems, itemToClients
    {
      State(clientToItems.entries, itemToClients.entries, hasFramework, announced, cache)
    }

    constructor ()
      ensures View() == INIT && fresh(clientToItems) && fresh(itemToClients)
    {
      hasFramework, announced, cache := false, {}, map[];
      clientToItems := new LocUnorderedSetMap();
      itemToClients := new LocUnorderedSetMap();
    }

    method SendCachedDataItems(items: set<Item>, to: Client) returns (sent: Delivery)
      ensures sent == Send(cache, items, to)
    {
      var dataItems: map<Item, Value>, rest := map[], items;
      while rest != {}
        invariant rest <= items && dataItems == Restrict(cache, items - rest)
        decreases rest
      {
        var i :| i in rest;
        rest := rest - {i};
        if i in cache {
          dataItems := dataItems[i := cache[i]];
        }
      }
      assert items - rest == items;
      sent := if dataItems == map[] then map[] else map[to := dataItems];
    }

    method Tell(come: set<Item>, gone: set<Item>)
      modifies this`announced
      ensures announced == Announce(old(View()), come, gone)
    {
      if hasFramework {
        if come != {} {
          announced := announced + come;
        }
        if gone != {} {
          announced := announced - gone;
        }
      }
    }

    method SetSubscriptionObject(other: bool)
      modifies this
      ensures (View(), map[]) == Step(old(View()), SetSubscriptionObj(other))
    {
      hasFramework := true;
      if other {
        announced := {};
      }
      assert itemToClients.entries == map[] ==> announced + itemToClients.entries.Keys == announced;
      if itemToClients.entries != map[] {
        announced := announced + itemToClients.entries.Keys;
      }
    }

    method HandleSubscribe(items: set<Item>, client: Option<Client>) returns (sent: Delivery)
      modifies this, clientToItems, itemToClients
      ensures (View(), sent) == Step(old(View()), Subscribe(items, client))
    {
      if items == {} || client.None? {
        return map[];
      }
      var toSubscribe := itemToClients.Add(items, {client.value});
      var _ := clientToItems.Add({client.value}, items);
      sent := SendCachedDataItems(items, client.value);
      Tell(toSubscribe, {});
    }

    method HandleUpdateSubscription(items: set<Item>, client: Option<Client>) returns (sent: Delivery)
      modifies this, clientToItems, itemToClients
      ensures (View(), sent) == Step(old(View()), UpdateSubscription(items, client))
    {
      if items == {} || client.None? {
        return map[];
      }
      var unused, added := clientToItems.Update(client.value, items);
      var toUnsubscribe, _ := itemToClients.TrimOrRemove(unused, {client.value});
      var toSubscribe := itemToClients.Add(added, {client.value});
      sent := SendCachedDataItems(added, client.value);
      Tell(toSubscribe, toUnsubscribe);
    }

    method HandleUnsubscribe(items: set<Item>, client: Option<Client>)
      modifies this, clientToItems, itemToClients
      ensures (View(), map[]) == Step(old(View()), Unsubscribe(items, client))
    {
      if items == {} || client.None? {
        return;
      }
      var _, unused := clientToItems.TrimOrRemove({client.value}, items);
      var toUnsubscribe, _ := itemToClients.TrimOrRemove(unused, {client.value});
      Tell({}, toUnsubscribe);
    }

    method HandleUnsubscribeAll(client: Option<Client>)
      modifies this, clientToItems, itemToClients
      ensures (View(), map[]) == Step(old(View()), UnsubscribeAll(client))
    {
      if client.None? {
        return;
      }
      var items := Get(clientToItems.entries, client.value);
      if items != {} {
        var _ := clientToItems.Remove(client.value);
        var toUnsubscribe, _ := itemToClients.TrimOrRemove(items, {client.value});
        Tell({}, toUnsubscribe);
      }
    }

    method UpdateCache(d: Option<Datum>) returns (updated: bool)
      modifies this`cache
      ensures updated == Changes(old(cache), d)
      ensures cache == if updated then old(cache)[d.value.id := d.value.value] else old(cache)
    {
      updated := false;
      if d.Some? && d.value.handled {
        updated := if d.value.id !in cache then d.value.created else d.value.changed;
        if updated {
          cache := cache[d.value.id := d.value.value];
        }
      }
    }

    // The loop that takes from a client's items those that are not sent.
    method KeepSent(items: set<Item>, sent: set<Item>) returns (kept: set<Item>)
      ensures kept == items * sent
    {
      kept := items;
      var rest := items;
      while rest != {}
        invariant rest <= kept && kept == items * sent + rest <= items
        decreases rest
      {
        var i :| i in rest;
        rest := rest - {i};
        if i !in sent {
          kept := kept - {i};
        }
      }
    }

    method ClientsOf(sent: set<Item>) returns (clients: set<Client>)
      ensures clients == ToClients(itemToClients.entries, sent)
    {
      clients := {};
      var rest := sent;
      while rest != {}
        invariant rest <= sent && clients == ToClients(itemToClients.entries, sent - rest)
        decreases rest
      {
        var i :| i in rest;
        ghost var more := sent - rest + {i};
        assert forall c :: c in ToClients(itemToClients.entries, more) <==>
          c in ToClients(itemToClients.entries, sent - rest) || Has(itemToClients.entries, i, c);
        rest := rest - {i};
        assert sent - rest == more;
        if i in itemToClients.entries {
          clients := clients + itemToClients.entries[i];
        }
      }
      assert sent - rest == sent;
    }

    method SendTo(clients: set<Client>, toSend: set<Item>) returns (sent: Delivery)
      ensures sent == Deliveries(clientToItems.entries, clients, toSend, cache)
    {
      sent := map[];
      var rest := clients;
      ghost var done: set<Client> := {};
      while rest != {}
        invariant done + rest == clients && done !! rest
        invariant sent == Deliveries(clientToItems.entries, done, toSend, cache)
        decreases rest
      {
        var c :| c in rest;
        rest, done := rest - {c}, done + {c};
        var mine := KeepSent(Get(clientToItems.entries, c), toSend);
        var some := SendCachedDataItems(mine, c);
        sent := sent + some;
        hide Restrict, Get;
      }
      assert done == clients;
    }

    method HandleNotify(data: seq<Option<Datum>>) returns (sent: Delivery)
      modifies this
      ensures (View(), sent) == Step(old(View()), Notify(data))
    {
      var toSend: set<Item> := {};
      for k := 0 to |data|
        invariant cache == CacheAfter(old(cache), data, k) && toSend == Sent(old(cache), data, k)
        invariant hasFramework == old(hasFramework) && announced == old(announced)
      {
        var updated := UpdateCache(data[k]);
        if updated {
          toSend := toSend + {data[k].value.id};
        }
      }
      var clients := ClientsOf(toSend);
      sent := SendTo(clients, toSend);
      hide CacheAfter, Sent, ToClients, Deliveries;
    }
  }
}
