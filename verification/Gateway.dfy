/**
 The in-memory websocket hub of one server instance.

 `HubState` is the value of the hub's maps and `GatewayHub` the object that
 updates them in place. The functions between the two say what every operation
 means for the maps as a whole; the methods, which walk single entries the way
 the server does, are proved to compute exactly that.
 */
module Gateway {
  import opened Base

  datatype Connection = Connection(userId: Id, channels: set<Id>, threads: set<Id>, lastHeartbeat: int)

  // The audiences an event can be published to.
  datatype Scope = ChannelScope(channelId: Id) | ThreadScope(threadId: Id) | UserScope(userId: Id) | Everyone

  // ---------------------------------------------------------------- indexes

  // A multimap from a user, channel or thread to connection ids.
  type Index = map<Id, set<Id>>

  predicate Lists(index: Index, key: Id, k: Id) {
    key in index && k in index[key]
  }

  ghost predicate NoEmptySet(index: Index) {
    forall key :: key in index ==> index[key] != {}
  }

  function Insert(index: Index, key: Id, k: Id): (r: Index)
    ensures forall x, y :: Lists(r, x, y) <==> Lists(index, x, y) || (x == key && y == k)
    ensures NoEmptySet(index) ==> NoEmptySet(r)
  {
    index[key := (if key in index then index[key] else {}) + {k}]
  }

  function Drop(index: Index, key: Id, k: Id): (r: Index)
    ensures forall x, y :: Lists(r, x, y) <==> Lists(index, x, y) && !(x == key && y == k)
    ensures NoEmptySet(index) ==> NoEmptySet(r)
  {
    if key !in index then index
    else if index[key] <= {k} then index - {key}
    else index[key := index[key] - {k}]
  }

  function DropEverywhere(index: Index, k: Id): (r: Index)
    ensures forall x, y :: Lists(r, x, y) <==> Lists(index, x, y) && y != k
    ensures NoEmptySet(r)
  {
    map key | key in index && !(index[key] <= {k}) :: index[key] - {k}
  }

  // An index without empty sets carries nothing but its relation.
  lemma IndexExtensional(i: Index, j: Index)
    requires NoEmptySet(i) && NoEmptySet(j)
    requires forall x, y :: Lists(i, x, y) <==> Lists(j, x, y)
    ensures i == j
  {
    forall x | x in i
      ensures x in j && i[x] == j[x]
    {
      var y :| y in i[x];
      assert Lists(i, x, y);
      assert forall z :: z in i[x] <==> Lists(i, x, z);
      assert forall z :: z in j[x] <==> Lists(j, x, z);
    }
    forall x | x in j
      ensures x in i
    {
      var y :| y in j[x];
      assert Lists(j, x, y);
    }
  }

  // The cleanup loop of `unregister`: drop k from the entries of the scopes
  // it subscribed to, one scope at a time.
  method DropFromScopes(index: Index, scopes: set<Id>, k: Id) returns (r: Index)
    requires NoEmptySet(index)
    ensures NoEmptySet(r)
    ensures forall x, y :: Lists(r, x, y) <==> Lists(index, x, y) && !(x in scopes && y == k)
  {
    r := index;
    var todo := scopes;
    while todo != {}
      invariant todo <= scopes
      invariant NoEmptySet(r)
      invariant forall x, y :: Lists(r, x, y) <==> Lists(index, x, y) && !(x in scopes - todo && y == k)
      decreases todo
    {
      var x :| x in todo;
      if x in r {
        r := if r[x] <= {k} then r - {x} else r[x := r[x] - {k}];
      }
      todo := todo - {x};
    }
  }

  // ------------------------------------------------------------ hub states

  // `queues` holds the outbound channel made for each connection. The channel
  // is owned by the socket task, so it outlives the hub's own entry.
  datatype HubState<E> = HubState(
    connections: map<Id, Connection>,
    userConnections: Index,
    channelSubscribers: Index,
    threadSubscribers: Index,
    queues: map<Id, seq<E>>)

  function EmptyHub<E>(): HubState<E> {
    HubState(map[], map[], map[], map[], map[])
  }

  // The four maps are inverse to each other as far as registered connections
  // go. A subscriber set may also hold ids that are no longer registered.
  ghost predicate Coherent<E>(s: HubState<E>) {
    && NoEmptySet(s.userConnections) && NoEmptySet(s.channelSubscribers) && NoEmptySet(s.threadSubscribers)
    && (forall u, k :: Lists(s.userConnections, u, k) <==> k in s.connections && s.connections[k].userId == u)
    && (forall k, c :: k in s.connections ==> (c in s.connections[k].channels <==> Lists(s.channelSubscribers, c, k)))
    && (forall k, c :: k in s.connections ==> (c in s.connections[k].threads <==> Lists(s.threadSubscribers, c, k)))
    && s.connections.Keys <= s.queues.Keys
  }

  // What a generated connection id guarantees: it occurs nowhere in the hub.
  ghost predicate Unused<E>(s: HubState<E>, k: Id) {
    && k !in s.queues
    && (forall c :: !Lists(s.channelSubscribers, c, k) && !Lists(s.threadSubscribers, c, k))
  }

  predicate InScope(conn: Connection, scope: Scope) {
    match scope
    case ChannelScope(c) => c in conn.channels
    case ThreadScope(t) => t in conn.threads
    case UserScope(u) => conn.userId == u
    case Everyone => true
  }

  // The audience of a scope, told from the connections' own state alone.
  function Recipients<E>(s: HubState<E>, scope: Scope): set<Id> {
    set k | k in s.connections && InScope(s.connections[k], scope)
  }

  function Delivered<E>(s: HubState<E>, targets: set<Id>, event: E): HubState<E> {
    s.(queues := map k | k in s.queues :: if k in targets then s.queues[k] + [event] else s.queues[k])
  }

  function Broadcasted<E>(s: HubState<E>, scope: Scope, event: E): HubState<E> {
    Delivered(s, Recipients(s, scope), event)
  }

  function Registered<E>(s: HubState<E>, k: Id, u: Id, now: int): HubState<E> {
    s.(connections := s.connections[k := Connection(u, {}, {}, now)],
       userConnections := Insert(s.userConnections, u, k),
       queues := s.queues[k := []])
  }

  function Unregistered<E>(s: HubState<E>, k: Id): HubState<E> {
    if k !in s.connections then s
    else s.(connections := s.connections - {k},
            userConnections := DropEverywhere(s.userConnections, k),
            channelSubscribers := DropEverywhere(s.channelSubscribers, k),
            threadSubscribers := DropEverywhere(s.threadSubscribers, k))
  }

  function ChannelSubscribed<E>(s: HubState<E>, k: Id, c: Id): HubState<E> {
    s.(connections :=
         if k !in s.connections then s.connections
         else s.connections[k := s.connections[k].(channels := s.connections[k].channels + {c})],
       channelSubscribers := Insert(s.channelSubscribers, c, k))
  }

  function ChannelUnsubscribed<E>(s: HubState<E>, k: Id, c: Id): HubState<E> {
    s.(connections :=
         if k !in s.connections then s.connections
         else s.connections[k := s.connections[k].(channels := s.connections[k].channels - {c})],
       channelSubscribers := Drop(s.channelSubscribers, c, k))
  }

  function ThreadSubscribed<E>(s: HubState<E>, k: Id, t: Id): HubState<E> {
    s.(connections :=
         if k !in s.connections then s.connections
         else s.connections[k := s.connections[k].(threads := s.connections[k].threads + {t})],
       threadSubscribers := Insert(s.threadSubscribers, t, k))
  }

  function ThreadUnsubscribed<E>(s: HubState<E>, k: Id, t: Id): HubState<E> {
    s.(connections :=
         if k !in s.connections then s.connections
         else s.connections[k := s.connections[k].(threads := s.connections[k].threads - {t})],
       threadSubscribers := Drop(s.threadSubscribers, t, k))
  }

  function Touched<E>(s: HubState<E>, k: Id, now: int): HubState<E> {
    if k in s.connections
    then s.(connections := s.connections[k := s.connections[k].(lastHeartbeat := now)])
    else s
  }

  function SentTo<E>(s: HubState<E>, k: Id, event: E): HubState<E> {
    if k in s.connections then Delivered(s, {k}, event) else s
  }

  function ShutDown<E>(s: HubState<E>): HubState<E> {
    HubState(map[], map[], map[], map[], s.queues)
  }

  // ------------------------------------------------------------------ runs

  datatype HubOp<E> =
    | Register(k: Id, user: Id, now: int)
    | Unregister(k: Id)
    | SubscribeChannel(k: Id, channel: Id)
    | UnsubscribeChannel(k: Id, channel: Id)
    | SubscribeThread(k: Id, thread: Id)
    | UnsubscribeThread(k: Id, thread: Id)
    | TouchHeartbeat(k: Id, now: int)
    | Broadcast(scope: Scope, event: E)
    | SendToConnection(k: Id, event: E)
    | ShutdownAll

  function Apply<E>(s: HubState<E>, op: HubOp<E>): HubState<E> {
    match op
    case Register(k, u, now) => Registered(s, k, u, now)
    case Unregister(k) => Unregistered(s, k)
    case SubscribeChannel(k, c) => ChannelSubscribed(s, k, c)
    case UnsubscribeChannel(k, c) => ChannelUnsubscribed(s, k, c)
    case SubscribeThread(k, t) => ThreadSubscribed(s, k, t)
    case UnsubscribeThread(k, t) => ThreadUnsubscribed(s, k, t)
    case TouchHeartbeat(k, now) => Touched(s, k, now)
    case Broadcast(scope, e) => Broadcasted(s, scope, e)
    case SendToConnection(k, e) => SentTo(s, k, e)
    case ShutdownAll => ShutDown(s)
  }

  // The only thing asked of a caller: registration draws an unused id.
  ghost predicate LegalOp<E>(s: HubState<E>, op: HubOp<E>) {
    op.Register? ==> Unused(s, op.k)
  }

  ghost predicate Legal<E>(s: HubState<E>, ops: seq<HubOp<E>>)
    decreases |ops|
  {
    ops == [] || (LegalOp(s, ops[0]) && Legal(Apply(s, ops[0]), ops[1..]))
  }

  function Run<E>(s: HubState<E>, ops: seq<HubOp<E>>): HubState<E>
    decreases |ops|
  {
    if ops == [] then s else Run(Apply(s, ops[0]), ops[1..])
  }

  lemma RegisterKeepsCoherent<E>(s: HubState<E>, k: Id, u: Id, now: int)
    requires Coherent(s) && Unused(s, k)
    ensures Coherent(Registered(s, k, u, now))
  {
  }

  lemma UnregisterKeepsCoherent<E>(s: HubState<E>, k: Id)
    requires Coherent(s)
    ensures Coherent(Unregistered(s, k))
  {
  }

  lemma ChannelsKeepCoherent<E>(s: HubState<E>, k: Id, c: Id)
    requires Coherent(s)
    ensures Coherent(ChannelSubscribed(s, k, c)) && Coherent(ChannelUnsubscribed(s, k, c))
  {
  }

  lemma ThreadsKeepCoherent<E>(s: HubState<E>, k: Id, t: Id)
    requires Coherent(s)
    ensures Coherent(ThreadSubscribed(s, k, t)) && Coherent(ThreadUnsubscribed(s, k, t))
  {
  }

  // Every call keeps the hub coherent.
  lemma ApplyKeepsCoherent<E>(s: HubState<E>, op: HubOp<E>)
    requires Coherent(s) && LegalOp(s, op)
    ensures Coherent(Apply(s, op))
  {
    match op
    case Register(k, u, now) => RegisterKeepsCoherent(s, k, u, now);
    case Unregister(k) => UnregisterKeepsCoherent(s, k);
    case SubscribeChannel(k, c) => ChannelsKeepCoherent(s, k, c);
    case UnsubscribeChannel(k, c) => ChannelsKeepCoherent(s, k, c);
    case SubscribeThread(k, t) => ThreadsKeepCoherent(s, k, t);
    case UnsubscribeThread(k, t) => ThreadsKeepCoherent(s, k, t);
    case TouchHeartbeat(k, now) =>
    case Broadcast(scope, e) =>
    case SendToConnection(k, e) =>
    case ShutdownAll =>
  }

  // Coherence holds after every call sequence, whatever its order.
  lemma {:induction false} RunKeepsCoherent<E>(s: HubState<E>, ops: seq<HubOp<E>>)
    requires Coherent(s) && Legal(s, ops)
    ensures Coherent(Run(s, ops))
    decreases |ops|
  {
    if ops == [] {
    } else {
      ApplyKeepsCoherent(s, ops[0]);
      RunKeepsCoherent(Apply(s, ops[0]), ops[1..]);
    }
  }

  // Before any call the hub is coherent, so every reachable hub is.
  lemma ReachableHubsAreCoherent<E>(ops: seq<HubOp<E>>)
    requires Legal(EmptyHub<E>(), ops)
    ensures Coherent(Run(EmptyHub<E>(), ops))
  {
    RunKeepsCoherent(EmptyHub<E>(), ops);
  }

  // --------------------------------------------------------------- dangling

  // The index lists k under a channel or thread.
  ghost predicate Subscriber<E>(s: HubState<E>, scope: Scope, k: Id) {
    match scope
    case ChannelScope(c) => Lists(s.channelSubscribers, c, k)
    case ThreadScope(t) => Lists(s.threadSubscribers, t, k)
    case _ => false
  }

  ghost predicate NoDangling<E>(s: HubState<E>) {
    forall scope, k :: Subscriber(s, scope, k) ==> k in s.connections
  }

  function SubscribedScope<E>(op: HubOp<E>): Option<Scope> {
    match op
    case SubscribeChannel(_, c) => Some(ChannelScope(c))
    case SubscribeThread(_, t) => Some(ThreadScope(t))
    case _ => None
  }

  function UnsubscribedScope<E>(op: HubOp<E>): Option<Scope> {
    match op
    case UnsubscribeChannel(_, c) => Some(ChannelScope(c))
    case UnsubscribeThread(_, t) => Some(ThreadScope(t))
    case _ => None
  }

  // A subscription for an id that is not registered.
  predicate Stray<E>(s: HubState<E>, op: HubOp<E>) {
    (op.SubscribeChannel? || op.SubscribeThread?) && op.k !in s.connections
  }

  // Which pairs of scope and id a call leaves in the index.
  lemma ApplySubscriber<E>(s: HubState<E>, op: HubOp<E>, scope: Scope, k: Id)
    requires Coherent(s)
    ensures Subscriber(Apply(s, op), scope, k) <==>
              || (SubscribedScope(op) == Some(scope) && op.k == k)
              || (&& Subscriber(s, scope, k) && !op.ShutdownAll?
                  && !(UnsubscribedScope(op) == Some(scope) && op.k == k)
                  && !(op.Unregister? && op.k == k && k in s.connections))
  {
    match op
    case Unregister(x) =>
    case _ =>
  }

  // EXACTLY STRAY. One call makes the index name an id that is not registered
  // exactly when it is a stray subscription.
  lemma ApplyKeepsNoDangling<E>(s: HubState<E>, op: HubOp<E>)
    requires Coherent(s) && LegalOp(s, op) && NoDangling(s)
    ensures NoDangling(Apply(s, op)) <==> !Stray(s, op)
  {
    forall scope, k
      ensures Subscriber(Apply(s, op), scope, k) ==> k in Apply(s, op).connections || Stray(s, op)
    {
      ApplySubscriber(s, op, scope, k);
    }
    if Stray(s, op) {
      ApplySubscriber(s, op, SubscribedScope(op).value, op.k);
    }
  }

  ghost predicate NeverDangles<E>(s: HubState<E>, ops: seq<HubOp<E>>)
    decreases |ops|
  {
    NoDangling(s) && (ops == [] || NeverDangles(Apply(s, ops[0]), ops[1..]))
  }

  ghost predicate NeverStray<E>(s: HubState<E>, ops: seq<HubOp<E>>)
    decreases |ops|
  {
    ops == [] || (!Stray(s, ops[0]) && NeverStray(Apply(s, ops[0]), ops[1..]))
  }

  // Over every run the index names registered connections only, at every
  // moment, exactly when no subscription of the run is stray.
  lemma {:induction false} RunNeverDangles<E>(s: HubState<E>, ops: seq<HubOp<E>>)
    requires Coherent(s) && NoDangling(s) && Legal(s, ops)
    ensures NeverDangles(s, ops) <==> NeverStray(s, ops)
    decreases |ops|
  {
    if ops == [] {
    } else {
      ApplyKeepsCoherent(s, ops[0]);
      ApplyKeepsNoDangling(s, ops[0]);
      if !Stray(s, ops[0]) {
        RunNeverDangles(Apply(s, ops[0]), ops[1..]);
      }
    }
  }

  // A dangling id is inert, and gone again exactly when its own scope is
  // unsubscribed or everything is shut down: `unregister` does not remove it.
  lemma DanglingRemains<E>(s: HubState<E>, op: HubOp<E>, scope: Scope, k: Id)
    requires Coherent(s) && LegalOp(s, op) && Subscriber(s, scope, k) && k !in s.connections
    ensures k !in Recipients(s, scope)
    ensures k !in Apply(s, op).connections
    ensures Subscriber(Apply(s, op), scope, k) <==>
              !op.ShutdownAll? && !(UnsubscribedScope(op) == Some(scope) && op.k == k)
  {
    ApplySubscriber(s, op, scope, k);
  }

  // A subscription that arrives after shutdown leaves an id behind, for a
  // channel as for a thread. No broadcast reaches it, and unregistering it
  // changes nothing.
  lemma SubscribeAfterShutdownDangles<E>(s: HubState<E>, op: HubOp<E>)
    requires op.SubscribeChannel? || op.SubscribeThread?
    ensures var t := Apply(ShutDown(s), op);
            && Coherent(ShutDown(s)) && Coherent(t) && !NoDangling(t)
            && Subscriber(t, SubscribedScope(op).value, op.k)
            && (forall scope :: Recipients(t, scope) == {})
            && Unregistered(t, op.k) == t
  {
    ApplyKeepsCoherent(ShutDown(s), op);
    ApplyKeepsNoDangling(ShutDown(s), op);
  }

  // Unregistering removes exactly one connection from exactly everywhere.
  lemma UnregisterIsExact<E>(s: HubState<E>, k: Id)
    requires Coherent(s) && k in s.connections
    ensures var t := Unregistered(s, k);
            && t.connections == s.connections - {k} && t.queues == s.queues
            && (forall x, y :: Lists(t.userConnections, x, y) <==> Lists(s.userConnections, x, y) && y != k)
            && (forall x, y :: Lists(t.channelSubscribers, x, y) <==> Lists(s.channelSubscribers, x, y) && y != k)
            && (forall x, y :: Lists(t.threadSubscribers, x, y) <==> Lists(s.threadSubscribers, x, y) && y != k)
            && (forall scope :: Recipients(t, scope) == Recipients(s, scope) - {k})
  {
  }

  // -------------------------------------------------------------- presence

  // What `register` answers: the user's set holds one id after the insertion.
  function FirstConnection<E>(s: HubState<E>, k: Id, u: Id): bool {
    |Insert(s.userConnections, u, k)[u]| == 1
  }

  // What `unregister` answers: removing the id emptied the user's set.
  function BecameOffline<E>(s: HubState<E>, k: Id): bool {
    && k in s.connections
    && var u := s.connections[k].userId;
    && u in s.userConnections
    && s.userConnections[u] - {k} == {}
  }

  predicate Connected<E>(s: HubState<E>, u: Id) {
    Recipients(s, UserScope(u)) != {}
  }

  lemma FirstConnectionMeaning<E>(s: HubState<E>, k: Id, u: Id)
    requires Coherent(s) && Unused(s, k)
    ensures FirstConnection(s, k, u) <==> !Connected(s, u)
  {
    var before := if u in s.userConnections then s.userConnections[u] else {};
    assert forall x :: x in before <==> Lists(s.userConnections, u, x);
    assert before == Recipients(s, UserScope(u));
    assert k !in before;
    assert |before + {k}| == |before| + 1;
  }

  lemma BecameOfflineMeaning<E>(s: HubState<E>, k: Id)
    requires Coherent(s) && k in s.connections
    ensures BecameOffline(s, k) <==> !Connected(Unregistered(s, k), s.connections[k].userId)
  {
    var u := s.connections[k].userId;
    assert Lists(s.userConnections, u, k);
    assert forall x :: x in s.userConnections[u] <==> Lists(s.userConnections, u, x);
    assert s.userConnections[u] - {k} == Recipients(Unregistered(s, k), UserScope(u));
  }

  // The online (true) and offline (false) notices one call causes for u.
  function Notice<E>(s: HubState<E>, op: HubOp<E>, u: Id): seq<bool> {
    match op
    case Register(k, v, _) => if v == u && FirstConnection(s, k, u) then [true] else []
    case Unregister(k) => if BecameOffline(s, k) && s.connections[k].userId == u then [false] else []
    case _ => []
  }

  function Notices<E>(s: HubState<E>, ops: seq<HubOp<E>>, u: Id): seq<bool>
    decreases |ops|
  {
    if ops == [] then [] else Notice(s, ops[0], u) + Notices(Apply(s, ops[0]), ops[1..], u)
  }

  lemma RegisteredConnects<E>(s: HubState<E>, k: Id, v: Id, now: int, u: Id)
    requires Coherent(s) && Unused(s, k)
    ensures Connected(Registered(s, k, v, now), u) <==> v == u || Connected(s, u)
  {
    assert Recipients(Registered(s, k, v, now), UserScope(u)) ==
           Recipients(s, UserScope(u)) + if v == u then {k} else {};
  }

  lemma RegisterNotice<E>(s: HubState<E>, k: Id, v: Id, now: int, u: Id)
    requires Coherent(s) && Unused(s, k)
    ensures var online := Connected(Registered(s, k, v, now), u);
            Notice(s, HubOp<E>.Register(k, v, now), u) == if online == Connected(s, u) then [] else [online]
  {
    FirstConnectionMeaning(s, k, v);
    RegisteredConnects(s, k, v, now, u);
  }

  lemma UnregisterNotice<E>(s: HubState<E>, k: Id, u: Id)
    requires Coherent(s)
    ensures var online := Connected(Unregistered(s, k), u);
            Notice(s, HubOp<E>.Unregister(k), u) == if online == Connected(s, u) then [] else [online]
  {
    if k in s.connections {
      BecameOfflineMeaning(s, k);
      assert Recipients(Unregistered(s, k), UserScope(u)) == Recipients(s, UserScope(u)) - {k};
      assert s.connections[k].userId == u <==> k in Recipients(s, UserScope(u));
    }
  }

  // One call emits a notice exactly when it changes whether u is connected,
  // and the notice names the new value.
  lemma NoticeIsTheChange<E>(s: HubState<E>, op: HubOp<E>, u: Id)
    requires Coherent(s) && LegalOp(s, op) && !op.ShutdownAll?
    ensures var online := Connected(Apply(s, op), u);
            Notice(s, op, u) == if online == Connected(s, u) then [] else [online]
  {
    match op
    case Register(k, v, now) => RegisterNotice(s, k, v, now, u);
    case Unregister(k) => UnregisterNotice(s, k, u);
    case ShutdownAll =>
    case _ => assert Recipients(Apply(s, op), UserScope(u)) == Recipients(s, UserScope(u));
  }

  // The i-th of a run of alternating values that starts with b.
  ghost predicate AlternatesFrom(log: seq<bool>, b: bool) {
    forall i :: 0 <= i < |log| ==> log[i] == (b == (i % 2 == 0))
  }

  ghost predicate NoShutdown<E>(ops: seq<HubOp<E>>) {
    forall op :: op in ops ==> !op.ShutdownAll?
  }

  lemma NoticesStep<E>(s: HubState<E>, ops: seq<HubOp<E>>, u: Id) returns (t: HubState<E>)
    requires ops != [] && Coherent(s) && Legal(s, ops) && NoShutdown(ops)
    ensures Coherent(t) && Legal(t, ops[1..]) && NoShutdown(ops[1..]) && Run(s, ops) == Run(t, ops[1..])
    ensures Notices(s, ops, u) ==
            (if Connected(t, u) == Connected(s, u) then [] else [Connected(t, u)]) + Notices(t, ops[1..], u)
  {
    t := Apply(s, ops[0]);
    ApplyKeepsCoherent(s, ops[0]);
    NoticeIsTheChange(s, ops[0], u);
  }

  // A log that alternates from the opposite of `before` and ends in `after`.
  ghost predicate Bridges(log: seq<bool>, before: bool, after: bool) {
    AlternatesFrom(log, !before) && after == (before == (|log| % 2 == 0))
  }

  lemma Prepend(rest: seq<bool>, before: bool, online: bool, after: bool)
    requires Bridges(rest, online, after)
    ensures Bridges((if online == before then [] else [online]) + rest, before, after)
  {
    if online == before {
      assert [] + rest == rest;
    } else {
      assert |[online] + rest| == 1 + |rest|;
    }
  }

  // Over every run without a shutdown the notices of a user alternate, start
  // with the opposite of what held before, and end with what holds after.
  lemma {:induction false} NoticesAlternate<E>(s: HubState<E>, ops: seq<HubOp<E>>, u: Id)
    requires Coherent(s) && Legal(s, ops) && NoShutdown(ops)
    ensures Bridges(Notices(s, ops, u), Connected(s, u), Connected(Run(s, ops), u))
    decreases |ops|
  {
    if ops == [] {
    } else {
      var rest := NoticesStep(s, ops, u);
      NoticesAlternate(rest, ops[1..], u);
      Prepend(Notices(rest, ops[1..], u), Connected(s, u), Connected(rest, u), Connected(Run(s, ops), u));
    }
  }

  function Count(log: seq<bool>, b: bool): nat {
    if log == [] then 0 else (if log[0] == b then 1 else 0) + Count(log[1..], b)
  }

  lemma {:induction false} AlternationBalance(log: seq<bool>, start: bool)
    requires AlternatesFrom(log, start)
    ensures Count(log, start) - Count(log, !start) == |log| % 2
  {
    if |log| < 2 {
    } else {
      var rest := log[2..];
      assert log[1..][1..] == rest;
      forall i | 0 <= i < |rest|
        ensures rest[i] == (start == (i % 2 == 0))
      {
        assert rest[i] == log[i + 2];
      }
      AlternationBalance(rest, start);
    }
  }

  // Starting disconnected (an empty hub, or right after a shutdown), the
  // online notices lead the offline ones by one exactly while u is connected.
  lemma PresenceRefcount<E>(s: HubState<E>, ops: seq<HubOp<E>>, u: Id)
    requires Coherent(s) && !Connected(s, u)
    requires Legal(s, ops) && NoShutdown(ops)
    ensures var log := Notices(s, ops, u);
            Count(log, true) - Count(log, false) == if Connected(Run(s, ops), u) then 1 else 0
  {
    NoticesAlternate(s, ops, u);
    AlternationBalance(Notices(s, ops, u), true);
  }

  // ----------------------------------------------------------------- queues

  // The events one call is meant to push to connection k.
  function Pushed<E>(s: HubState<E>, op: HubOp<E>, k: Id): seq<E> {
    if k !in s.connections then []
    else
      match op
      case Broadcast(ChannelScope(c), e) => if c in s.connections[k].channels then [e] else []
      case Broadcast(ThreadScope(t), e) => if t in s.connections[k].threads then [e] else []
      case Broadcast(UserScope(u), e) => if s.connections[k].userId == u then [e] else []
      case Broadcast(Everyone, e) => [e]
      case SendToConnection(x, e) => if x == k then [e] else []
      case _ => []
  }

  // Those of a run, in the order of the calls.
  function AllPushed<E>(s: HubState<E>, ops: seq<HubOp<E>>, k: Id): seq<E>
    decreases |ops|
  {
    if ops == [] then [] else Pushed(s, ops[0], k) + AllPushed(Apply(s, ops[0]), ops[1..], k)
  }

  lemma ApplyPushes<E>(s: HubState<E>, op: HubOp<E>, k: Id)
    requires LegalOp(s, op) && k in s.queues
    ensures k in Apply(s, op).queues && Apply(s, op).queues[k] == s.queues[k] + Pushed(s, op, k)
  {
    match op
    case Register(x, _, _) => assert x != k;
    case _ =>
  }

  // IN ORDER. Over every run a queue keeps what it holds and grows at its end
  // by the events of the calls that were meant for it, in the order of the
  // calls, each once.
  lemma {:induction false} QueueGrowsByWhatWasPushed<E>(s: HubState<E>, ops: seq<HubOp<E>>, k: Id)
    requires Legal(s, ops) && k in s.queues
    ensures k in Run(s, ops).queues && Run(s, ops).queues[k] == s.queues[k] + AllPushed(s, ops, k)
    decreases |ops|
  {
    if ops == [] {
      assert s.queues[k] + [] == s.queues[k];
    } else {
      var t := Apply(s, ops[0]);
      ApplyPushes(s, ops[0], k);
      QueueGrowsByWhatWasPushed(t, ops[1..], k);
      calc {
        t.queues[k] + AllPushed(t, ops[1..], k);
      ==
        (s.queues[k] + Pushed(s, ops[0], k)) + AllPushed(t, ops[1..], k);
      ==
        s.queues[k] + (Pushed(s, ops[0], k) + AllPushed(t, ops[1..], k));
      }
    }
  }

  // ----------------------------------------------------------- the hub object

  datatype UnregisterResult = UnregisterResult(userId: Id, becameOffline: bool)

  class GatewayHub<E> {
    var connections: map<Id, Connection>
    var userConnections: Index
    var channelSubscribers: Index
    var threadSubscribers: Index
    var queues: map<Id, seq<E>>

    ghost function View(): HubState<E>
      reads this
    {
      HubState(connections, userConnections, channelSubscribers, threadSubscribers, queues)
    }

    ghost predicate Valid()
      reads this
    {
      Coherent(View())
    }

    constructor ()
      ensures Valid() && View() == EmptyHub()
    {
      connections, userConnections, channelSubscribers, threadSubscribers := map[], map[], map[], map[];
      queues := map[];
    }

    method Register(k: Id, userId: Id, now: int) returns (firstConnection: bool)
      requires Valid() && Unused(View(), k)
      modifies this
      ensures Valid() && View() == Registered(old(View()), k, userId, now)
      ensures connections == old(connections)[k := Connection(userId, {}, {}, now)] && queues == old(queues)[k := []]
      ensures forall u, x ::
                Lists(userConnections, u, x) <==> Lists(old(userConnections), u, x) || (u == userId && x == k)
      ensures channelSubscribers == old(channelSubscribers) && threadSubscribers == old(threadSubscribers)
      ensures firstConnection <==> !Connected(old(View()), userId)
    {
      ghost var before := View();
      connections := connections[k := Connection(userId, {}, {}, now)];
      var own := (if userId in userConnections then userConnections[userId] else {}) + {k};
      userConnections := userConnections[userId := own];
      firstConnection := |own| == 1;
      queues := queues[k := []];
      FirstConnectionMeaning(before, k, userId);
      RegisterKeepsCoherent(before, k, userId, now);
    }

    method Unregister(k: Id) returns (result: Option<UnregisterResult>)
      requires Valid()
      modifies this
      ensures Valid() && View() == Unregistered(old(View()), k)
      ensures connections == old(connections) - {k} && queues == old(queues)
      ensures k in old(connections) ==>
                && (forall u, x :: Lists(userConnections, u, x) <==> Lists(old(userConnections), u, x) && x != k)
                && (forall c, x :: Lists(channelSubscribers, c, x) <==> Lists(old(channelSubscribers), c, x) && x != k)
                && (forall t, x :: Lists(threadSubscribers, t, x) <==> Lists(old(threadSubscribers), t, x) && x != k)
      ensures k !in old(connections) ==> View() == old(View())
      ensures result.Some? <==> k in old(connections)
      ensures result.Some? ==>
                && result.value.userId == old(connections[k].userId)
                && (result.value.becameOffline <==> !Connected(View(), result.value.userId))
    {
      ghost var before := View();
      if k !in connections {
        return None;
      }
      var conn := connections[k];
      connections := connections - {k};
      channelSubscribers := DropFromScopes(channelSubscribers, conn.channels, k);
      threadSubscribers := DropFromScopes(threadSubscribers, conn.threads, k);
      var becameOffline := false;
      if conn.userId in userConnections {
        var rest := userConnections[conn.userId] - {k};
        userConnections := userConnections[conn.userId := rest];
        if rest == {} {
          userConnections := userConnections - {conn.userId};
          becameOffline := true;
        }
      }
      assert userConnections == Drop(before.userConnections, conn.userId, k);
      IndexExtensional(channelSubscribers, DropEverywhere(before.channelSubscribers, k));
      IndexExtensional(threadSubscribers, DropEverywhere(before.threadSubscribers, k));
      IndexExtensional(userConnections, DropEverywhere(before.userConnections, k));
      BecameOfflineMeaning(before, k);
      UnregisterKeepsCoherent(before, k);
      return Some(UnregisterResult(conn.userId, becameOffline));
    }

    method SubscribeChannel(k: Id, channelId: Id)
      requires Valid()
      modifies this
      ensures Valid() && View() == ChannelSubscribed(old(View()), k, channelId)
      ensures connections ==
              if k !in old(connections) then old(connections)
              else old(connections)[k := old(connections[k]).(channels := old(connections[k]).channels + {channelId})]
      ensures forall c, x ::
                Lists(channelSubscribers, c, x) <==> Lists(old(channelSubscribers), c, x) || (c == channelId && x == k)
      ensures userConnections == old(userConnections) && threadSubscribers == old(threadSubscribers)
      ensures queues == old(queues)
    {
      ghost var before := View();
      if k in connections {
        connections := connections[k := connections[k].(channels := connections[k].channels + {channelId})];
      }
      if channelId !in channelSubscribers {
        channelSubscribers := channelSubscribers[channelId := {}];
      }
      channelSubscribers := channelSubscribers[channelId := channelSubscribers[channelId] + {k}];
      assert channelSubscribers == Insert(before.channelSubscribers, channelId, k);
      ChannelsKeepCoherent(before, k, channelId);
    }

    method UnsubscribeChannel(k: Id, channelId: Id)
      requires Valid()
      modifies this
      ensures Valid() && View() == ChannelUnsubscribed(old(View()), k, channelId)
      ensures connections ==
              if k !in old(connections) then old(connections)
              else old(connections)[k := old(connections[k]).(channels := old(connections[k]).channels - {channelId})]
      ensures forall c, x ::
                Lists(channelSubscribers, c, x) <==> Lists(old(channelSubscribers), c, x) && !(c == channelId && x == k)
      ensures userConnections == old(userConnections) && threadSubscribers == old(threadSubscribers)
      ensures queues == old(queues)
    {
      ghost var before := View();
      if k in connections {
        connections := connections[k := connections[k].(channels := connections[k].channels - {channelId})];
      }
      if channelId in channelSubscribers {
        var rest := channelSubscribers[channelId] - {k};
        channelSubscribers := channelSubscribers[channelId := rest];
        if rest == {} {
          channelSubscribers := channelSubscribers - {channelId};
        }
      }
      IndexExtensional(channelSubscribers, Drop(before.channelSubscribers, channelId, k));
      ChannelsKeepCoherent(before, k, channelId);
    }

    method SubscribeThread(k: Id, threadId: Id)
      requires Valid()
      modifies this
      ensures Valid() && View() == ThreadSubscribed(old(View()), k, threadId)
      ensures connections ==
              if k !in old(connections) then old(connections)
              else old(connections)[k := old(connections[k]).(threads := old(connections[k]).threads + {threadId})]
      ensures forall c, x ::
                Lists(threadSubscribers, c, x) <==> Lists(old(threadSubscribers), c, x) || (c == threadId && x == k)
      ensures userConnections == old(userConnections) && channelSubscribers == old(channelSubscribers)
      ensures queues == old(queues)
    {
      ghost var before := View();
      if k in connections {
        connections := connections[k := connections[k].(threads := connections[k].threads + {threadId})];
      }
      if threadId !in threadSubscribers {
        threadSubscribers := threadSubscribers[threadId := {}];
      }
      threadSubscribers := threadSubscribers[threadId := threadSubscribers[threadId] + {k}];
      assert threadSubscribers == Insert(before.threadSubscribers, threadId, k);
      ThreadsKeepCoherent(before, k, threadId);
    }

    method UnsubscribeThread(k: Id, threadId: Id)
      requires Valid()
      modifies this
      ensures Valid() && View() == ThreadUnsubscribed(old(View()), k, threadId)
      ensures connections ==
              if k !in old(connections) then old(connections)
              else old(connections)[k := old(connections[k]).(threads := old(connections[k]).threads - {threadId})]
      ensures forall c, x ::
                Lists(threadSubscribers, c, x) <==> Lists(old(threadSubscribers), c, x) && !(c == threadId && x == k)
      ensures userConnections == old(userConnections) && channelSubscribers == old(channelSubscribers)
      ensures queues == old(queues)
    {
      ghost var before := View();
      if k in connections {
        connections := connections[k := connections[k].(threads := connections[k].threads - {threadId})];
      }
      if threadId in threadSubscribers {
        var rest := threadSubscribers[threadId] - {k};
        threadSubscribers := threadSubscribers[threadId := rest];
        if rest == {} {
          threadSubscribers := threadSubscribers - {threadId};
        }
      }
      IndexExtensional(threadSubscribers, Drop(before.threadSubscribers, threadId, k));
      ThreadsKeepCoherent(before, k, threadId);
    }

    method TouchHeartbeat(k: Id, now: int)
      requires Valid()
      modifies this`connections
      ensures Valid() && View() == Touched(old(View()), k, now)
      ensures connections ==
              if k !in old(connections) then old(connections)
              else old(connections)[k := old(connections[k]).(lastHeartbeat := now)]
    {
      if k in connections {
        connections := connections[k := connections[k].(lastHeartbeat := now)];
      }
    }

    // Push the event to every listed id that is still registered.
    method SendEach(listed: set<Id>, event: E)
      requires Valid()
      modifies this`queues
      ensures Valid() && View() == Delivered(old(View()), listed * connections.Keys, event)
      ensures queues.Keys == old(queues.Keys)
      ensures forall k :: k in queues ==>
                queues[k] == old(queues)[k] + if k in listed && k in connections then [event] else []
    {
      var todo := listed;
      while todo != {}
        invariant todo <= listed && queues.Keys == old(queues.Keys)
        invariant forall k :: k in queues ==>
                    queues[k] == old(queues)[k] + if k in listed - todo && k in connections then [event] else []
        decreases todo
      {
        var k :| k in todo;
        if k in connections {
          queues := queues[k := queues[k] + [event]];
        }
        todo := todo - {k};
      }
      assert queues == Delivered(old(View()), listed * connections.Keys, event).queues;
    }

    method BroadcastToChannel(channelId: Id, event: E)
      requires Valid()
      modifies this`queues
      ensures Valid() && View() == Broadcasted(old(View()), ChannelScope(channelId), event)
      ensures queues.Keys == old(queues.Keys)
      ensures forall k :: k in queues ==>
                queues[k] == old(queues)[k] +
                             if k in connections && channelId in connections[k].channels then [event] else []
    {
      ghost var before := View();
      if channelId in channelSubscribers {
        assert forall k :: k in channelSubscribers[channelId] <==> Lists(channelSubscribers, channelId, k);
        assert channelSubscribers[channelId] * connections.Keys == Recipients(before, ChannelScope(channelId));
        SendEach(channelSubscribers[channelId], event);
      } else {
        assert forall k :: !Lists(channelSubscribers, channelId, k);
        assert Recipients(before, ChannelScope(channelId)) == {};
      }
    }

    method BroadcastToThread(threadId: Id, event: E)
      requires Valid()
      modifies this`queues
      ensures Valid() && View() == Broadcasted(old(View()), ThreadScope(threadId), event)
      ensures queues.Keys == old(queues.Keys)
      ensures forall k :: k in queues ==>
                queues[k] == old(queues)[k] +
                             if k in connections && threadId in connections[k].threads then [event] else []
    {
      ghost var before := View();
      if threadId in threadSubscribers {
        assert forall k :: k in threadSubscribers[threadId] <==> Lists(threadSubscribers, threadId, k);
        assert threadSubscribers[threadId] * connections.Keys == Recipients(before, ThreadScope(threadId));
        SendEach(threadSubscribers[threadId], event);
      } else {
        assert forall k :: !Lists(threadSubscribers, threadId, k);
        assert Recipients(before, ThreadScope(threadId)) == {};
      }
    }

    method BroadcastToUser(userId: Id, event: E)
      requires Valid()
      modifies this`queues
      ensures Valid() && View() == Broadcasted(old(View()), UserScope(userId), event)
      ensures queues.Keys == old(queues.Keys)
      ensures forall k :: k in queues ==>
                queues[k] == old(queues)[k] +
                             if k in connections && connections[k].userId == userId then [event] else []
    {
      ghost var before := View();
      if userId in userConnections {
        assert forall k :: k in userConnections[userId] <==> Lists(userConnections, userId, k);
        assert userConnections[userId] * connections.Keys == Recipients(before, UserScope(userId));
        SendEach(userConnections[userId], event);
      } else {
        assert forall k :: k in connections ==> Lists(userConnections, connections[k].userId, k);
        assert Recipients(before, UserScope(userId)) == {};
      }
    }

    method BroadcastGlobal(event: E)
      requires Valid()
      modifies this`queues
      ensures Valid() && View() == Broadcasted(old(View()), Everyone, event)
      ensures queues.Keys == old(queues.Keys)
      ensures forall k :: k in queues ==>
                queues[k] == old(queues)[k] + if k in connections then [event] else []
    {
      assert connections.Keys * connections.Keys == Recipients(View(), Everyone);
      SendEach(connections.Keys, event);
    }

    method SendToConnection(k: Id, event: E)
      requires Valid()
      modifies this`queues
      ensures Valid() && View() == SentTo(old(View()), k, event)
      ensures queues.Keys == old(queues.Keys)
      ensures forall x :: x in queues ==>
                queues[x] == old(queues)[x] + if x == k && k in connections then [event] else []
    {
      if k in connections {
        queues := queues[k := queues[k] + [event]];
      }
    }

    method ShutdownAll()
      requires Valid()
      modifies this
      ensures Valid() && View() == ShutDown(old(View()))
      ensures connections == map[] && userConnections == map[]
      ensures channelSubscribers == map[] && threadSubscribers == map[]
      ensures queues == old(queues)
    {
      connections, userConnections := map[], map[];
      channelSubscribers, threadSubscribers := map[], map[];
    }
  }
}
