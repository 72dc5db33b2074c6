/**
 Fan-out of events over several server instances.

 Publishing an event delivers it to the publisher's own hub and then hands an
 envelope to Redis, which passes it to the listener session of every instance.
 A session drops envelopes of its own instance and dispatches the others. The
 cluster is a transition system over these steps, interleaved in any order with
 hub calls and with listener sessions that come and go.
 */
module Fanout {
  import opened Base
  import opened Protocol
  import opened Gateway

  // ---------------------------------------------------------------- topics

  datatype Subscription = Pattern(prefix: string) | Exact(name: string)

  predicate Matches(sub: Subscription, topic: string) {
    match sub
    case Pattern(prefix) => prefix <= topic
    case Exact(name) => name == topic
  }

  // In the order in which a listener session asks for them.
  const SUBSCRIPTIONS: seq<Subscription> :=
    [Pattern("events:channel:"), Pattern("events:thread:"), Pattern("events:user:"), Exact("events:presence")]

  // The topic an event of a scope is published on; idText is the printed id.
  function TopicName(scope: Scope, idText: string): string {
    match scope
    case ChannelScope(_) => "events:channel:" + idText
    case ThreadScope(_) => "events:thread:" + idText
    case UserScope(_) => "events:user:" + idText
    case Everyone => "events:presence"
  }

  // Redis sends a session one copy of a message for each matching subscription.
  function Matching(subs: seq<Subscription>, topic: string): nat {
    if subs == [] then 0
    else (if Matches(subs[0], topic) then 1 else 0) + Matching(subs[1..], topic)
  }

  lemma TopicKinds(scope: Scope, idText: string)
    ensures var topic := TopicName(scope, idText);
            && (Matches(SUBSCRIPTIONS[0], topic) <==> scope.ChannelScope?)
            && (Matches(SUBSCRIPTIONS[1], topic) <==> scope.ThreadScope?)
            && (Matches(SUBSCRIPTIONS[2], topic) <==> scope.UserScope?)
            && (Matches(SUBSCRIPTIONS[3], topic) <==> scope.Everyone?)
  {
    var topic := TopicName(scope, idText);
    assert topic[7] ==
           match scope
           case ChannelScope(_) => 'c'
           case ThreadScope(_) => 't'
           case UserScope(_) => 'u'
           case Everyone => 'p';
    assert "events:channel:"[7] == 'c' && "events:thread:"[7] == 't';
    assert "events:user:"[7] == 'u' && "events:presence"[7] == 'p';
  }

  lemma {:induction false} MatchingOne(subs: seq<Subscription>, topic: string, hit: int, n: nat)
    requires n <= |subs|
    requires forall i :: 0 <= i < |subs| ==> (Matches(subs[i], topic) <==> i == hit)
    ensures Matching(subs[..n], topic) == if 0 <= hit < n then 1 else 0
  {
    if n == 0 {
    } else {
      assert subs[..n][1..] == subs[1..][..n - 1];
      MatchingOne(subs[1..], topic, hit - 1, n - 1);
    }
  }

  // Whatever the id prints as, a full session gets each topic exactly once,
  // and a session that is still subscribing gets it at most once.
  lemma EachTopicMatchesOnce(scope: Scope, idText: string, n: nat)
    requires n <= |SUBSCRIPTIONS|
    ensures Matching(SUBSCRIPTIONS[..n], TopicName(scope, idText)) <= 1
    ensures n == |SUBSCRIPTIONS| ==> Matching(SUBSCRIPTIONS[..n], TopicName(scope, idText)) == 1
  {
    TopicKinds(scope, idText);
    var topic := TopicName(scope, idText);
    var hit := match scope case ChannelScope(_) => 0 case ThreadScope(_) => 1 case UserScope(_) => 2 case Everyone => 3;
    MatchingOne(SUBSCRIPTIONS, topic, hit, n);
  }

  // -------------------------------------------------------------- dispatch

  // An event together with the publish call it stems from, if any.
  datatype Tagged = Tagged(event: ServerEvent, call: Option<nat>)

  // `dispatch_event`: what a remote instance does with a received event.
  function Dispatched(s: HubState<Tagged>, t: Tagged): HubState<Tagged> {
    match t.event
    case MessageCreate(c, _) => Broadcasted(s, ChannelScope(c), t)
    case MessageUpdate(c, _) => Broadcasted(s, ChannelScope(c), t)
    case MessageDelete(c, _, _) => Broadcasted(s, ChannelScope(c), t)
    case Typing(c, _) => Broadcasted(s, ChannelScope(c), t)
    case ThreadMessageCreate(th, _) => Broadcasted(s, ThreadScope(th), t)
    case ThreadMessageUpdate(th, _) => Broadcasted(s, ThreadScope(th), t)
    case ThreadMessageDelete(th, _, _) => Broadcasted(s, ThreadScope(th), t)
    case ThreadTyping(th, _) => Broadcasted(s, ThreadScope(th), t)
    case ThreadRequestReceived(_, _, receiver) => Broadcasted(s, UserScope(receiver), t)
    case ThreadAccepted(_, _, requester, receiver) =>
      var first := Broadcasted(s, UserScope(requester), t);
      if requester != receiver then Broadcasted(first, UserScope(receiver), t) else first
    case PresenceUpdate(_, _) => Broadcasted(s, Everyone, t)
    case _ => s
  }

  // The scopes the HTTP and websocket handlers publish an event to.
  function PublishScopes(event: ServerEvent): set<Scope> {
    match event
    case MessageCreate(c, _) => {ChannelScope(c)}
    case MessageUpdate(c, _) => {ChannelScope(c)}
    case MessageDelete(c, _, _) => {ChannelScope(c)}
    case Typing(c, _) => {ChannelScope(c)}
    case ThreadMessageCreate(th, _) => {ThreadScope(th)}
    case ThreadMessageUpdate(th, _) => {ThreadScope(th)}
    case ThreadMessageDelete(th, _, _) => {ThreadScope(th)}
    case ThreadTyping(th, _) => {ThreadScope(th)}
    case ThreadRequestReceived(_, _, receiver) => {UserScope(receiver)}
    case ThreadAccepted(_, _, requester, receiver) => {UserScope(requester), UserScope(receiver)}
    case PresenceUpdate(_, _) => {Everyone}
    case _ => {}
  }

  ghost function Union(s: HubState<Tagged>, scopes: set<Scope>): set<Id> {
    set k | k in s.connections && exists scope :: scope in scopes && InScope(s.connections[k], scope)
  }

  // The connections that some publish scope of the event would reach.
  ghost function Audience(s: HubState<Tagged>, event: ServerEvent): set<Id> {
    Union(s, PublishScopes(event))
  }

  lemma UnionOf(s: HubState<Tagged>, a: Scope, b: Scope)
    ensures Union(s, {}) == {}
    ensures Union(s, {a}) == Recipients(s, a)
    ensures Union(s, {a, b}) == Recipients(s, a) + Recipients(s, b)
  {
    assert a in {a, b} && b in {a, b};
  }

  lemma DeliveredTwice(s: HubState<Tagged>, a: set<Id>, b: set<Id>, t: Tagged)
    requires a !! b
    ensures Delivered(Delivered(s, a, t), b, t) == Delivered(s, a + b, t)
  {
  }

  lemma DispatchedToScope(s: HubState<Tagged>, t: Tagged, scope: Scope)
    requires scope in PublishScopes(t.event) && !t.event.ThreadAccepted?
    ensures Dispatched(s, t) == Broadcasted(s, scope, t)
  {
    match t.event
    case MessageCreate(c, _) => assert scope == ChannelScope(c);
    case MessageUpdate(c, _) => assert scope == ChannelScope(c);
    case MessageDelete(c, _, _) => assert scope == ChannelScope(c);
    case Typing(c, _) => assert scope == ChannelScope(c);
    case ThreadMessageCreate(th, _) => assert scope == ThreadScope(th);
    case ThreadMessageUpdate(th, _) => assert scope == ThreadScope(th);
    case ThreadMessageDelete(th, _, _) => assert scope == ThreadScope(th);
    case ThreadTyping(th, _) => assert scope == ThreadScope(th);
    case ThreadRequestReceived(_, _, receiver) => assert scope == UserScope(receiver);
    case PresenceUpdate(_, _) => assert scope == Everyone;
    case _ =>
  }

  lemma OneScope(s: HubState<Tagged>, t: Tagged, scope: Scope)
    requires scope in PublishScopes(t.event) && !t.event.ThreadAccepted?
    ensures Audience(s, t.event) == Recipients(s, scope)
    ensures Dispatched(s, t) == Delivered(s, Recipients(s, scope), t)
  {
    assert PublishScopes(t.event) == {scope};
    UnionOf(s, scope, scope);
    DispatchedToScope(s, t, scope);
  }

  lemma BothUsers(s: HubState<Tagged>, t: Tagged)
    requires t.event.ThreadAccepted?
    ensures Dispatched(s, t) == Delivered(s, Audience(s, t.event), t)
  {
    var a, b := UserScope(t.event.requesterUserId), UserScope(t.event.receiverUserId);
    UnionOf(s, a, b);
    if a != b {
      assert Recipients(Broadcasted(s, a, t), b) == Recipients(s, b);
      DeliveredTwice(s, Recipients(s, a), Recipients(s, b), t);
    }
  }

  lemma NoScope(s: HubState<Tagged>, t: Tagged)
    requires PublishScopes(t.event) == {}
    ensures Dispatched(s, t) == Delivered(s, Audience(s, t.event), t)
  {
    UnionOf(s, Everyone, Everyone);
    assert Dispatched(s, t) == s;
    assert Delivered(s, {}, t).queues == s.queues;
  }

  // However an event is routed, its dispatch is one delivery to its audience.
  lemma DispatchReachesItsAudience(s: HubState<Tagged>, t: Tagged)
    ensures Dispatched(s, t) == Delivered(s, Audience(s, t.event), t)
  {
    if t.event.ThreadAccepted? {
      BothUsers(s, t);
    } else if PublishScopes(t.event) == {} {
      NoScope(s, t);
    } else {
      var scope :| scope in PublishScopes(t.event);
      OneScope(s, t, scope);
    }
  }

  lemma DispatchedQueues(before: HubState<Tagged>, after: HubState<Tagged>, t: Tagged)
    requires after == Dispatched(before, t)
    ensures after.queues.Keys == before.queues.Keys
    ensures forall k :: k in after.queues ==>
              after.queues[k] == before.queues[k] + if k in Audience(before, t.event) then [t] else []
  {
    DispatchReachesItsAudience(before, t);
  }

  // Remote instances choose the connections the publisher's own instance
  // would choose, save for ThreadAccepted, where they choose at least those.
  lemma RoutesAlike(s: HubState<Tagged>, scope: Scope, t: Tagged)
    requires scope in PublishScopes(t.event)
    ensures Recipients(s, scope) <= Audience(s, t.event)
    ensures !t.event.ThreadAccepted? ==> Dispatched(s, t) == Broadcasted(s, scope, t)
  {
    if !t.event.ThreadAccepted? {
      OneScope(s, t, scope);
    }
  }

  // --------------------------------------------------------------- cluster

  // No origin: the payload was a bare event, not an envelope.
  datatype Envelope = Envelope(origin: Option<Id>, event: Tagged)

  // `subscribed` counts the subscriptions the listener has established so far
  // (0 while disconnected); `inbox` holds what Redis sent but it has not read.
  datatype Node = Node(hub: HubState<Tagged>, subscribed: nat, inbox: seq<Envelope>)

  // One publish call: where it was made and what it published.
  datatype Publish = Publish(origin: Option<Id>, scope: Scope, event: ServerEvent)

  // `log` records every publish call, numbered by position. A call is pending
  // between its local broadcast and the end of its Redis publish.
  datatype Cluster = Cluster(nodes: map<Id, Node>, log: seq<Publish>, pending: set<nat>)

  datatype Step =
    | PublishLocal(node: Id, scope: Scope, event: ServerEvent)
    | PublishRemote(call: nat, idText: string)
    | PublishFailed(call: nat)
    | ForeignPublish(scope: Scope, event: ServerEvent, idText: string)
    | Receive(node: Id)
    | Subscribe(node: Id)
    | Disconnect(node: Id)
    | HubCall(node: Id, op: HubOp<Tagged>)

  // Received by a session: its own echo is dropped, the rest dispatched.
  function Received(id: Id, hub: HubState<Tagged>, env: Envelope): HubState<Tagged> {
    if env.origin == Some(id) then hub else Dispatched(hub, env.event)
  }

  // The copies of an envelope Redis appends to one session's inbox.
  function Sent(subscribed: nat, topic: string, env: Envelope): seq<Envelope>
    requires subscribed <= |SUBSCRIPTIONS|
  {
    seq(Matching(SUBSCRIPTIONS[..subscribed], topic), _ => env)
  }

  function SentToAll(nodes: map<Id, Node>, topic: string, env: Envelope): map<Id, Node>
    requires forall j :: j in nodes ==> nodes[j].subscribed <= |SUBSCRIPTIONS|
  {
    map j | j in nodes :: nodes[j].(inbox := nodes[j].inbox + Sent(nodes[j].subscribed, topic, env))
  }

  ghost predicate Recorded(log: seq<Publish>, env: Envelope) {
    && env.event.call.Some? && env.event.call.value < |log|
    && var made := log[env.event.call.value];
    env.origin == made.origin && env.event.event == made.event
  }

  ghost predicate WellFormed(c: Cluster) {
    && (forall p :: p in c.pending ==> p < |c.log|)
    && (forall j :: j in c.nodes ==>
          && Coherent(c.nodes[j].hub)
          && c.nodes[j].subscribed <= |SUBSCRIPTIONS|
          && forall n :: 0 <= n < |c.nodes[j].inbox| ==> Recorded(c.log, c.nodes[j].inbox[n]))
  }

  ghost predicate Enabled(c: Cluster, step: Step) {
    match step
    case PublishLocal(i, _, _) => i in c.nodes
    case PublishRemote(p, _) => p in c.pending
    case PublishFailed(p) => p in c.pending
    case ForeignPublish(_, _, _) => true
    case Receive(j) => j in c.nodes && c.nodes[j].inbox != []
    case Subscribe(j) => j in c.nodes && c.nodes[j].subscribed < |SUBSCRIPTIONS|
    case Disconnect(j) => j in c.nodes
    case HubCall(j, op) =>
      && j in c.nodes && LegalOp(c.nodes[j].hub, op) && !op.Broadcast?
      && (op.SendToConnection? ==> op.event.call.None?)
  }

  ghost function Next(c: Cluster, step: Step): Cluster
    requires WellFormed(c) && Enabled(c, step)
  {
    match step
    case PublishLocal(i, scope, event) =>
      var node := c.nodes[i];
      var t := Tagged(event, Some(|c.log|));
      Cluster(c.nodes[i := node.(hub := Broadcasted(node.hub, scope, t))],
              c.log + [Publish(Some(i), scope, event)],
              c.pending + {|c.log|})
    case PublishRemote(p, idText) =>
      var made := c.log[p];
      var env := Envelope(made.origin, Tagged(made.event, Some(p)));
      c.(nodes := SentToAll(c.nodes, TopicName(made.scope, idText), env), pending := c.pending - {p})
    case PublishFailed(p) =>
      c.(pending := c.pending - {p})
    case ForeignPublish(scope, event, idText) =>
      var env := Envelope(None, Tagged(event, Some(|c.log|)));
      c.(nodes := SentToAll(c.nodes, TopicName(scope, idText), env), log := c.log + [Publish(None, scope, event)])
    case Receive(j) =>
      var node := c.nodes[j];
      c.(nodes := c.nodes[j := node.(hub := Received(j, node.hub, node.inbox[0]), inbox := node.inbox[1..])])
    case Subscribe(j) =>
      c.(nodes := c.nodes[j := c.nodes[j].(subscribed := c.nodes[j].subscribed + 1)])
    case Disconnect(j) =>
      c.(nodes := c.nodes[j := c.nodes[j].(subscribed := 0, inbox := [])])
    case HubCall(j, op) =>
      c.(nodes := c.nodes[j := c.nodes[j].(hub := Apply(c.nodes[j].hub, op))])
  }

  // ----------------------------------------------------- counting the copies

  // How many entries of a connection's queue stem from publish call p.
  function Copies(q: seq<Tagged>, p: nat): nat {
    if q == [] then 0
    else Copies(q[..|q| - 1], p) + if q[|q| - 1].call == Some(p) then 1 else 0
  }

  // Whether reading the envelope at instance j will dispatch call p.
  function Weight(env: Envelope, j: Id, p: nat): nat {
    if env.event.call == Some(p) && env.origin != Some(j) then 1 else 0
  }

  function Load(inbox: seq<Envelope>, j: Id, p: nat): nat {
    if inbox == [] then 0 else Weight(inbox[0], j, p) + Load(inbox[1..], j, p)
  }

  lemma {:induction false} LoadConcat(a: seq<Envelope>, b: seq<Envelope>, j: Id, p: nat)
    ensures Load(a + b, j, p) == Load(a, j, p) + Load(b, j, p)
  {
    if a == [] {
      assert a + b == b;
    } else {
      assert (a + b)[1..] == a[1..] + b;
      LoadConcat(a[1..], b, j, p);
    }
  }

  // A message weighs at most one at each session, exactly one at a full one.
  lemma SentWeighsOnce(subscribed: nat, scope: Scope, idText: string, env: Envelope, j: Id, p: nat)
    requires subscribed <= |SUBSCRIPTIONS|
    ensures var load := Load(Sent(subscribed, TopicName(scope, idText), env), j, p);
            && load <= Weight(env, j, p)
            && (subscribed == |SUBSCRIPTIONS| ==> load == Weight(env, j, p))
  {
    EachTopicMatchesOnce(scope, idText, subscribed);
    var copies := Sent(subscribed, TopicName(scope, idText), env);
    if copies != [] {
      assert copies == [env];
    }
  }

  // Future dispatches of call p at instance j: a pending publish that has
  // still to reach it, and what lies in its inbox.
  function Due(c: Cluster, j: Id, p: nat): nat
    requires j in c.nodes
  {
    (if p in c.pending && p < |c.log| && c.log[p].origin != Some(j) then 1 else 0) + Load(c.nodes[j].inbox, j, p)
  }

  function Queued(c: Cluster, j: Id, k: Id, p: nat): nat
    requires j in c.nodes && k in c.nodes[j].hub.queues
  {
    Copies(c.nodes[j].hub.queues[k], p)
  }

  // The same for any connection id: 0 for one that instance j never had.
  function Got(c: Cluster, j: Id, k: Id, p: nat): nat {
    if j in c.nodes && k in c.nodes[j].hub.queues then Queued(c, j, k, p) else 0
  }

  ghost predicate Bounded(c: Cluster, j: Id, p: nat)
    requires j in c.nodes
  {
    var most := if p < |c.log| then 1 else 0;
    && Due(c, j, p) <= most
    && forall k :: k in c.nodes[j].hub.queues ==> Queued(c, j, k, p) + Due(c, j, p) <= most
  }

  // The cluster invariant: what a queue has got from a call and what may
  // still come add up to at most one.
  ghost predicate Inv(c: Cluster) {
    WellFormed(c) && forall j, p: nat :: j in c.nodes ==> Bounded(c, j, p)
  }

  lemma DeliveredCopies(s: HubState<Tagged>, targets: set<Id>, t: Tagged, k: Id, p: nat)
    requires k in s.queues
    ensures k in Delivered(s, targets, t).queues
    ensures Copies(Delivered(s, targets, t).queues[k], p)
         == Copies(s.queues[k], p) + if k in targets && t.call == Some(p) then 1 else 0
  {
    var q := s.queues[k];
    assert (q + [t])[..|q|] == q;
  }

  lemma HubCallCopies(s: HubState<Tagged>, op: HubOp<Tagged>, k: Id, p: nat)
    requires LegalOp(s, op) && !op.Broadcast? && (op.SendToConnection? ==> op.event.call.None?)
    requires k in Apply(s, op).queues
    ensures Copies(Apply(s, op).queues[k], p) == if k in s.queues then Copies(s.queues[k], p) else 0
  {
    match op
    case SendToConnection(k', t) =>
      if k' in s.connections {
        DeliveredCopies(s, {k'}, t, k, p);
      }
    case _ =>
  }

  lemma ReceivedCopies(id: Id, s: HubState<Tagged>, env: Envelope, k: Id, p: nat)
    requires k in s.queues
    ensures k in Received(id, s, env).queues
    ensures Copies(Received(id, s, env).queues[k], p)
         == Copies(s.queues[k], p) + if k in Audience(s, env.event.event) then Weight(env, id, p) else 0
  {
    DispatchReachesItsAudience(s, env.event);
    DeliveredCopies(s, Audience(s, env.event.event), env.event, k, p);
  }

  lemma SentToAllLoad(c: Cluster, scope: Scope, idText: string, env: Envelope, j: Id, p: nat)
    requires WellFormed(c) && j in c.nodes
    ensures var load := Load(SentToAll(c.nodes, TopicName(scope, idText), env)[j].inbox, j, p);
            && Load(c.nodes[j].inbox, j, p) <= load <= Load(c.nodes[j].inbox, j, p) + Weight(env, j, p)
            && (c.nodes[j].subscribed == |SUBSCRIPTIONS| ==> load == Load(c.nodes[j].inbox, j, p) + Weight(env, j, p))
  {
    var node := c.nodes[j];
    LoadConcat(node.inbox, Sent(node.subscribed, TopicName(scope, idText), env), j, p);
    SentWeighsOnce(node.subscribed, scope, idText, env, j, p);
  }

  // Copies of call p that the step itself puts into k's queue at instance j.
  ghost function Gain(c: Cluster, step: Step, j: Id, k: Id, p: nat): nat
    requires WellFormed(c) && Enabled(c, step) && j in c.nodes
  {
    var hub := c.nodes[j].hub;
    match step
    case PublishLocal(i, scope, _) => if i == j && p == |c.log| && k in Recipients(hub, scope) then 1 else 0
    case Receive(i) =>
      if i == j && k in Audience(hub, c.nodes[j].inbox[0].event.event) then Weight(c.nodes[j].inbox[0], j, p) else 0
    case _ => 0
  }

  // The effect of a step on the copies in one queue.
  lemma StepCopies(c: Cluster, step: Step, j: Id, k: Id, p: nat)
    requires WellFormed(c) && Enabled(c, step) && j in c.nodes
    requires k in Next(c, step).nodes[j].hub.queues
    ensures Queued(Next(c, step), j, k, p) ==
            (if k in c.nodes[j].hub.queues then Queued(c, j, k, p) else 0) + Gain(c, step, j, k, p)
  {
    var hub := c.nodes[j].hub;
    match step
    case PublishLocal(i, scope, event) =>
      if i == j {
        DeliveredCopies(hub, Recipients(hub, scope), Tagged(event, Some(|c.log|)), k, p);
      }
    case Receive(i) =>
      if i == j {
        DispatchReachesItsAudience(hub, c.nodes[j].inbox[0].event);
        ReceivedCopies(j, hub, c.nodes[j].inbox[0], k, p);
      }
    case HubCall(i, op) =>
      if i == j {
        HubCallCopies(hub, op, k, p);
      }
    case _ =>
  }

  // The effect of a step on the dispatches that are still to come.
  lemma StepDue(c: Cluster, step: Step, j: Id, p: nat)
    requires WellFormed(c) && Enabled(c, step) && j in c.nodes
    requires p >= |c.log| ==> Due(c, j, p) == 0
    ensures j in Next(c, step).nodes
    ensures var due, later := Due(c, j, p), Due(Next(c, step), j, p);
            match step
            case PublishLocal(i, _, _) => later == if p == |c.log| then (if i == j then 0 else 1) else due
            case ForeignPublish(_, _, _) => if p == |c.log| then later <= 1 else later == due
            case Receive(i) => later + (if i == j then Weight(c.nodes[j].inbox[0], j, p) else 0) == due
            case Disconnect(i) => later <= due && (i != j ==> later == due)
            case PublishRemote(q, _) =>
              later <= due && (p != q || c.nodes[j].subscribed == |SUBSCRIPTIONS| ==> later == due)
            case PublishFailed(q) => later <= due && (p != q ==> later == due)
            case _ => later == due
  {
    match step
    case PublishRemote(q, idText) =>
      var made := c.log[q];
      SentToAllLoad(c, made.scope, idText, Envelope(made.origin, Tagged(made.event, Some(q))), j, p);
    case ForeignPublish(scope, event, idText) =>
      SentToAllLoad(c, scope, idText, Envelope(None, Tagged(event, Some(|c.log|))), j, p);
    case _ =>
  }

  lemma NextHubCoherent(c: Cluster, step: Step, j: Id)
    requires WellFormed(c) && Enabled(c, step) && j in c.nodes
    ensures j in Next(c, step).nodes && Coherent(Next(c, step).nodes[j].hub)
  {
    match step
    case Receive(i) => DispatchReachesItsAudience(c.nodes[i].hub, c.nodes[i].inbox[0].event);
    case HubCall(i, op) => ApplyKeepsCoherent(c.nodes[i].hub, op);
    case _ =>
  }

  // Whatever a step leaves in an inbox was there before or was just sent.
  lemma NextInboxRecorded(c: Cluster, step: Step, j: Id, env: Envelope)
    requires WellFormed(c) && Enabled(c, step) && j in c.nodes
    requires env in Next(c, step).nodes[j].inbox
    ensures Recorded(Next(c, step).log, env)
  {
    if env in c.nodes[j].inbox {
      assert Recorded(c.log, env);
    }
  }

  lemma NextKeepsWellFormed(c: Cluster, step: Step)
    requires WellFormed(c) && Enabled(c, step)
    ensures WellFormed(Next(c, step))
  {
    var d := Next(c, step);
    forall j | j in d.nodes
      ensures Coherent(d.nodes[j].hub) && d.nodes[j].subscribed <= |SUBSCRIPTIONS|
      ensures forall n :: 0 <= n < |d.nodes[j].inbox| ==> Recorded(d.log, d.nodes[j].inbox[n])
    {
      NextHubCoherent(c, step, j);
      forall n | 0 <= n < |d.nodes[j].inbox|
        ensures Recorded(d.log, d.nodes[j].inbox[n])
      {
        NextInboxRecorded(c, step, j, d.nodes[j].inbox[n]);
      }
    }
  }

  lemma NextKeepsBounded(c: Cluster, step: Step, j: Id, p: nat)
    requires WellFormed(c) && Enabled(c, step) && j in c.nodes && Bounded(c, j, p)
    ensures j in Next(c, step).nodes && Bounded(Next(c, step), j, p)
  {
    var d := Next(c, step);
    StepDue(c, step, j, p);
    forall k | k in d.nodes[j].hub.queues
      ensures Queued(d, j, k, p) + Due(d, j, p) <= if p < |d.log| then 1 else 0
    {
      StepCopies(c, step, j, k, p);
    }
  }

  lemma NextKeepsInv(c: Cluster, step: Step)
    requires Inv(c) && Enabled(c, step)
    ensures Inv(Next(c, step))
  {
    NextKeepsWellFormed(c, step);
    forall j, p: nat | j in Next(c, step).nodes
      ensures Bounded(Next(c, step), j, p)
    {
      NextKeepsBounded(c, step, j, p);
    }
  }

  // ------------------------------------------------------------------ runs

  ghost predicate Feasible(c: Cluster, steps: seq<Step>)
    requires WellFormed(c)
    decreases |steps|
  {
    steps == [] || (
      && Enabled(c, steps[0])
      && (NextKeepsWellFormed(c, steps[0]); Feasible(Next(c, steps[0]), steps[1..])))
  }

  ghost function RunSteps(c: Cluster, steps: seq<Step>): (d: Cluster)
    requires WellFormed(c) && Feasible(c, steps)
    ensures WellFormed(d)
    decreases |steps|
  {
    if steps == [] then c
    else NextKeepsWellFormed(c, steps[0]); RunSteps(Next(c, steps[0]), steps[1..])
  }

  lemma FeasibleStep(c: Cluster, step: Step, rest: seq<Step>)
    requires WellFormed(c) && Enabled(c, step) && WellFormed(Next(c, step)) && Feasible(Next(c, step), rest)
    ensures Feasible(c, [step] + rest) && RunSteps(c, [step] + rest) == RunSteps(Next(c, step), rest)
  {
    assert ([step] + rest)[1..] == rest;
  }

  // Freshly started instances: empty hubs, no session yet.
  function Start(ids: set<Id>): (c: Cluster)
    ensures Inv(c)
  {
    Cluster(map j | j in ids :: Node(EmptyHub(), 0, []), [], {})
  }

  lemma {:induction false} RunKeepsInv(c: Cluster, steps: seq<Step>)
    requires Inv(c) && Feasible(c, steps)
    ensures Inv(RunSteps(c, steps)) && RunSteps(c, steps).nodes.Keys == c.nodes.Keys
    decreases |steps|
  {
    if steps == [] {
    } else {
      NextKeepsInv(c, steps[0]);
      RunKeepsInv(Next(c, steps[0]), steps[1..]);
    }
  }

  // AT MOST ONCE. Over every run of any number of instances, one publish call
  // puts at most one copy of its event into the queue of any connection.
  lemma FanoutAtMostOnce(ids: set<Id>, steps: seq<Step>, j: Id, k: Id, p: nat)
    requires Feasible(Start(ids), steps) && j in ids
    ensures var c := RunSteps(Start(ids), steps);
            j in c.nodes && Got(c, j, k, p) <= 1
  {
    RunKeepsInv(Start(ids), steps);
    assert Bounded(RunSteps(Start(ids), steps), j, p);
  }

  // ------------------------------------------------------------ completeness

  // Call p has reached k's queue at instance j, or still will.
  ghost predicate Covered(c: Cluster, j: Id, k: Id, p: nat) {
    j in c.nodes && k in c.nodes[j].hub.queues && Queued(c, j, k, p) + Due(c, j, p) >= 1
  }

  // Instance j listens, and connection k is among those call p is meant for.
  ghost predicate Attentive(c: Cluster, j: Id, k: Id, p: nat) {
    && p < |c.log| && j in c.nodes && c.nodes[j].subscribed == |SUBSCRIPTIONS|
    && k in Audience(c.nodes[j].hub, c.log[p].event)
  }

  // A run throughout which k stays attentive, the session of j is not lost
  // and the Redis publish of p does not fail.
  ghost predicate Steady(c: Cluster, steps: seq<Step>, j: Id, k: Id, p: nat)
    requires WellFormed(c)
    decreases |steps|
  {
    && Attentive(c, j, k, p)
    && (steps == [] || (
      && Enabled(c, steps[0]) && steps[0] != Disconnect(j) && steps[0] != PublishFailed(p)
      && (NextKeepsWellFormed(c, steps[0]); Steady(Next(c, steps[0]), steps[1..], j, k, p))))
  }

  // Nothing of call p is left to be sent to or read by instance j.
  ghost predicate Drained(c: Cluster, j: Id, p: nat) {
    && j in c.nodes && p !in c.pending
    && forall n :: 0 <= n < |c.nodes[j].inbox| ==> c.nodes[j].inbox[n].event.call != Some(p)
  }

  lemma {:induction false} UnmentionedLoad(inbox: seq<Envelope>, j: Id, p: nat)
    requires forall n :: 0 <= n < |inbox| ==> inbox[n].event.call != Some(p)
    ensures Load(inbox, j, p) == 0
  {
    if inbox == [] {
    } else {
      UnmentionedLoad(inbox[1..], j, p);
    }
  }

  lemma QueuesRemain(c: Cluster, step: Step, j: Id, k: Id)
    requires WellFormed(c) && Enabled(c, step) && j in c.nodes && k in c.nodes[j].hub.queues
    ensures j in Next(c, step).nodes && k in Next(c, step).nodes[j].hub.queues
  {
    match step
    case Receive(i) =>
      if i == j {
        ReceivedCopies(i, c.nodes[i].hub, c.nodes[i].inbox[0], k, 0);
      }
    case HubCall(i, op) => assert c.nodes[i].hub.queues.Keys <= Apply(c.nodes[i].hub, op).queues.Keys;
    case _ =>
  }

  // While k is attentive, what a step takes from the due it gives to the queue.
  lemma DueNeverJustVanishes(c: Cluster, step: Step, j: Id, k: Id, p: nat)
    requires WellFormed(c) && Enabled(c, step) && Attentive(c, j, k, p)
    requires step != Disconnect(j) && step != PublishFailed(p)
    ensures j in Next(c, step).nodes
    ensures Due(Next(c, step), j, p) + Gain(c, step, j, k, p) == Due(c, j, p)
  {
    StepDue(c, step, j, p);
    if step == Receive(j) {
      assert Recorded(c.log, c.nodes[j].inbox[0]);
    }
  }

  lemma StepKeepsCovered(c: Cluster, step: Step, j: Id, k: Id, p: nat)
    requires WellFormed(c) && Enabled(c, step) && Attentive(c, j, k, p) && Covered(c, j, k, p)
    requires step != Disconnect(j) && step != PublishFailed(p)
    ensures Covered(Next(c, step), j, k, p)
  {
    QueuesRemain(c, step, j, k);
    StepCopies(c, step, j, k, p);
    DueNeverJustVanishes(c, step, j, k, p);
  }

  lemma {:induction false} SteadyRun(c: Cluster, steps: seq<Step>, j: Id, k: Id, p: nat)
    requires Inv(c) && Steady(c, steps, j, k, p) && Covered(c, j, k, p)
    ensures Feasible(c, steps)
    ensures var d := RunSteps(c, steps); Inv(d) && Covered(d, j, k, p)
    decreases |steps|
  {
    if steps == [] {
    } else {
      NextKeepsInv(c, steps[0]);
      StepKeepsCovered(c, steps[0], j, k, p);
      SteadyRun(Next(c, steps[0]), steps[1..], j, k, p);
    }
  }

  lemma SteadyRunDeliversOnce(c: Cluster, steps: seq<Step>, j: Id, k: Id, p: nat)
    requires Inv(c) && Steady(c, steps, j, k, p) && Covered(c, j, k, p)
    ensures Feasible(c, steps)
    ensures var d := RunSteps(c, steps);
            Drained(d, j, p) ==> Got(d, j, k, p) == 1
  {
    SteadyRun(c, steps, j, k, p);
    var d := RunSteps(c, steps);
    assert Bounded(d, j, p);
    if Drained(d, j, p) {
      UnmentionedLoad(d.nodes[j].inbox, j, p);
    }
  }

  // The local broadcast covers the publisher's own recipients at once; at any
  // other instance the event is due to every connection.
  lemma PublishCovers(c: Cluster, i: Id, scope: Scope, event: ServerEvent, j: Id, k: Id)
    requires Inv(c) && i in c.nodes && j in c.nodes && k in c.nodes[j].hub.queues
    requires i == j ==> k in Recipients(c.nodes[j].hub, scope)
    ensures var d := Next(c, PublishLocal(i, scope, event));
            && Inv(d) && Covered(d, j, k, |c.log|)
            && (i == j ==> Queued(d, j, k, |c.log|) == 1)
  {
    var step, p := PublishLocal(i, scope, event), |c.log|;
    NextKeepsInv(c, step);
    assert Bounded(c, j, p);
    StepDue(c, step, j, p);
    StepCopies(c, step, j, k, p);
  }

  // SOUND. Only the call's own publish scope and its dispatch audience ever
  // receive a copy.
  lemma OnlyTheAudience(c: Cluster, step: Step, j: Id, k: Id, p: nat)
    requires WellFormed(c) && Enabled(c, step) && j in c.nodes && k in c.nodes[j].hub.queues
    requires k in Next(c, step).nodes[j].hub.queues
    requires Queued(Next(c, step), j, k, p) > Queued(c, j, k, p)
    ensures p < |Next(c, step).log|
    ensures var made := Next(c, step).log[p];
            k in Recipients(c.nodes[j].hub, made.scope) || k in Audience(c.nodes[j].hub, made.event)
  {
    StepCopies(c, step, j, k, p);
    if step == Receive(j) {
      assert Recorded(c.log, c.nodes[j].inbox[0]);
    }
  }

  // Connection k is in neither the scope nor the dispatch audience of call p,
  // if that call has been made.
  ghost predicate NotMeant(hub: HubState<Tagged>, log: seq<Publish>, k: Id, p: nat) {
    p < |log| ==> k !in Recipients(hub, log[p].scope) && k !in Audience(hub, log[p].event)
  }

  // The same of instance j at every step of a run, from the call on.
  ghost predicate NeverMeant(c: Cluster, steps: seq<Step>, j: Id, k: Id, p: nat)
    requires WellFormed(c) && Feasible(c, steps)
    decreases |steps|
  {
    && j in c.nodes
    && (steps == [] || (
      && NotMeant(c.nodes[j].hub, Next(c, steps[0]).log, k, p)
      && (NextKeepsWellFormed(c, steps[0]); NeverMeant(Next(c, steps[0]), steps[1..], j, k, p))))
  }

  lemma NotMeantGetsNothing(c: Cluster, step: Step, j: Id, k: Id, p: nat)
    requires WellFormed(c) && Enabled(c, step) && j in c.nodes && Got(c, j, k, p) == 0
    requires NotMeant(c.nodes[j].hub, Next(c, step).log, k, p)
    ensures Got(Next(c, step), j, k, p) == 0
  {
    if j in Next(c, step).nodes && k in Next(c, step).nodes[j].hub.queues {
      StepCopies(c, step, j, k, p);
      if step == Receive(j) {
        assert Recorded(c.log, c.nodes[j].inbox[0]);
      }
    }
  }

  // SOUND OVER RUNS. A connection that is never in the scope or the dispatch
  // audience of a call has no copy of it in the end.
  lemma {:induction false} NeverMeantGetsNothing(c: Cluster, steps: seq<Step>, j: Id, k: Id, p: nat)
    requires WellFormed(c) && Feasible(c, steps) && NeverMeant(c, steps, j, k, p) && Got(c, j, k, p) == 0
    ensures Got(RunSteps(c, steps), j, k, p) == 0
    decreases |steps|
  {
    if steps == [] {
    } else {
      NotMeantGetsNothing(c, steps[0], j, k, p);
      NextKeepsWellFormed(c, steps[0]);
      NeverMeantGetsNothing(Next(c, steps[0]), steps[1..], j, k, p);
    }
  }

  // A copy of a call made at instance j itself is never due there again.
  lemma OwnCallsAreFinal(c: Cluster, step: Step, j: Id, k: Id, p: nat)
    requires WellFormed(c) && Enabled(c, step) && j in c.nodes && k in c.nodes[j].hub.queues
    requires p < |c.log| && c.log[p].origin == Some(j)
    ensures k in Next(c, step).nodes[j].hub.queues ==> Queued(Next(c, step), j, k, p) == Queued(c, j, k, p)
  {
    if k in Next(c, step).nodes[j].hub.queues {
      StepCopies(c, step, j, k, p);
      if step == Receive(j) {
        assert Recorded(c.log, c.nodes[j].inbox[0]);
      }
    }
  }

  // Over every run: what a queue at the publisher's instance has got of a call
  // is all it will ever get.
  lemma {:induction false} OwnCopiesAreFinal(c: Cluster, steps: seq<Step>, j: Id, k: Id, p: nat)
    requires WellFormed(c) && Feasible(c, steps) && j in c.nodes && k in c.nodes[j].hub.queues
    requires p < |c.log| && c.log[p].origin == Some(j)
    ensures Got(RunSteps(c, steps), j, k, p) == Got(c, j, k, p)
    decreases |steps|
  {
    if steps == [] {
    } else {
      OwnCallsAreFinal(c, steps[0], j, k, p);
      QueuesRemain(c, steps[0], j, k);
      NextKeepsWellFormed(c, steps[0]);
      OwnCopiesAreFinal(Next(c, steps[0]), steps[1..], j, k, p);
    }
  }

  // COMPLETE. A publish reaches each connection in its scope exactly once: at
  // the publisher's own instance from that moment on, whatever happens later,
  // and at any other once what was sent has been read, provided the connection
  // stays in the audience and the session of its instance lasts.
  lemma FanoutExactlyOnce(c: Cluster, i: Id, scope: Scope, event: ServerEvent, steps: seq<Step>, j: Id, k: Id)
    requires Inv(c) && i in c.nodes && j in c.nodes
    requires scope in PublishScopes(event) && k in Recipients(c.nodes[j].hub, scope)
    requires var first := PublishLocal(i, scope, event);
             (NextKeepsWellFormed(c, first); Feasible(Next(c, first), steps))
    requires i != j ==> Steady(Next(c, PublishLocal(i, scope, event)), steps, j, k, |c.log|)
    ensures var d := Next(c, PublishLocal(i, scope, event));
            && WellFormed(d) && Feasible(d, steps)
            && (i == j || Drained(RunSteps(d, steps), j, |c.log|) ==> Got(RunSteps(d, steps), j, k, |c.log|) == 1)
  {
    PublishCovers(c, i, scope, event, j, k);
    var d := Next(c, PublishLocal(i, scope, event));
    if i == j {
      OwnCopiesAreFinal(d, steps, j, k, |c.log|);
    } else {
      SteadyRunDeliversOnce(d, steps, j, k, |c.log|);
    }
  }

  // A local broadcast adds one copy of its own call and touches no other call.
  lemma LocalPublishCopies(c: Cluster, i: Id, scope: Scope, event: ServerEvent, k: Id)
    requires Inv(c) && i in c.nodes && k in c.nodes[i].hub.queues
    ensures var d := Next(c, PublishLocal(i, scope, event));
            && k in d.nodes[i].hub.queues
            && (forall p: nat :: p < |c.log| ==> Got(d, i, k, p) == Got(c, i, k, p))
            && Got(d, i, k, |c.log|) == (if k in Recipients(c.nodes[i].hub, scope) then 1 else 0)
            && Got(d, i, k, |c.log| + 1) == 0
  {
    var step := PublishLocal(i, scope, event);
    assert Bounded(c, i, |c.log|) && Bounded(c, i, |c.log| + 1);
    forall p: nat
      ensures Got(Next(c, step), i, k, p) == Got(c, i, k, p) + Gain(c, step, i, k, p)
    {
      StepCopies(c, step, i, k, p);
    }
  }

  // -------------------------------------------------------- server objects

  // The Redis connection of one instance: what it has published so far.
  class RedisPublisher {
    var published: seq<(Scope, Envelope)>

    constructor ()
      ensures published == []
    {
      published := [];
    }

    method PublishEnvelope(instanceId: Id, scope: Scope, event: Tagged, reachable: bool) returns (sent: bool)
      modifies this
      ensures sent == reachable
      ensures published == old(published) + if sent then [(scope, Envelope(Some(instanceId), event))] else []
    {
      if !reachable {
        return false;
      }
      published := published + [(scope, Envelope(Some(instanceId), event))];
      return true;
    }
  }

  class Instance {
    const id: Id
    const hub: GatewayHub<Tagged>
    const redis: RedisPublisher

    constructor (id: Id)
      ensures this.id == id && hub.Valid() && fresh(hub) && fresh(redis)
    {
      this.id := id;
      hub := new GatewayHub<Tagged>();
      redis := new RedisPublisher();
    }

    // Local subscribers first, then Redis, whose failure is only logged.
    method PublishEvent(scope: Scope, event: Tagged, redisReachable: bool)
      requires hub.Valid()
      modifies hub`queues, redis
      ensures hub.Valid() && hub.View() == Broadcasted(old(hub.View()), scope, event)
      ensures hub.queues.Keys == old(hub.queues.Keys)
      ensures forall k :: k in hub.queues ==>
                hub.queues[k] == old(hub.queues)[k] + Pushed(old(hub.View()), HubOp.Broadcast(scope, event), k)
      ensures redis.published ==
              old(redis.published) + if redisReachable then [(scope, Envelope(Some(id), event))] else []
    {
      match scope {
        case ChannelScope(c) => hub.BroadcastToChannel(c, event);
        case ThreadScope(t) => hub.BroadcastToThread(t, event);
        case UserScope(u) => hub.BroadcastToUser(u, event);
        case Everyone => hub.BroadcastGlobal(event);
      }
      var _ := redis.PublishEnvelope(id, scope, event, redisReachable);
    }

    // To two users, but only once if they are one.
    method DispatchToBoth(requester: Id, receiver: Id, t: Tagged)
      requires hub.Valid()
      modifies hub`queues
      ensures hub.Valid()
      ensures var first := Broadcasted(old(hub.View()), UserScope(requester), t);
              hub.View() == if requester != receiver then Broadcasted(first, UserScope(receiver), t) else first
    {
      hub.BroadcastToUser(requester, t);
      if requester != receiver {
        hub.BroadcastToUser(receiver, t);
      }
    }

    method DispatchEvent(t: Tagged)
      requires hub.Valid()
      modifies hub`queues
      ensures hub.Valid() && hub.View() == Dispatched(old(hub.View()), t)
    {
      match t.event {
        case MessageCreate(c, _) => hub.BroadcastToChannel(c, t);
        case MessageUpdate(c, _) => hub.BroadcastToChannel(c, t);
        case MessageDelete(c, _, _) => hub.BroadcastToChannel(c, t);
        case Typing(c, _) => hub.BroadcastToChannel(c, t);
        case ThreadMessageCreate(th, _) => hub.BroadcastToThread(th, t);
        case ThreadMessageUpdate(th, _) => hub.BroadcastToThread(th, t);
        case ThreadMessageDelete(th, _, _) => hub.BroadcastToThread(th, t);
        case ThreadTyping(th, _) => hub.BroadcastToThread(th, t);
        case ThreadRequestReceived(_, _, receiver) => hub.BroadcastToUser(receiver, t);
        case ThreadAccepted(_, _, requester, receiver) =>
          DispatchToBoth(requester, receiver, t);
        case PresenceUpdate(_, _) => hub.BroadcastGlobal(t);
        case _ =>
      }
    }

    // The body of the session loop for one decoded message.
    method HandleEnvelope(env: Envelope)
      requires hub.Valid()
      modifies hub`queues
      ensures hub.Valid() && hub.View() == Received(id, old(hub.View()), env)
      ensures hub.queues.Keys == old(hub.queues.Keys)
      ensures forall k :: k in hub.queues ==>
                hub.queues[k] == old(hub.queues)[k] +
                                 if env.origin != Some(id) && k in Audience(old(hub.View()), env.event.event)
                                 then [env.event] else []
    {
      ghost var before := hub.View();
      if env.origin != Some(id) {
        DispatchEvent(env.event);
        DispatchedQueues(before, hub.View(), env.event);
      }
    }
  }
}
