/**
 The one event that is published twice. Accepting a direct thread publishes the
 same ThreadAccepted event to the requester and then to the receiver, each
 publish awaited to its end, while a dispatch of the event reaches both users.
 */
module AcceptFanout {
  import opened Base
  import opened Protocol
  import opened Gateway
  import opened Fanout

  // The two publish calls of the accept handler.
  function ToRequester(i: Id, event: ServerEvent): Step
    requires event.ThreadAccepted?
  {
    PublishLocal(i, UserScope(event.requesterUserId), event)
  }

  function ToReceiver(i: Id, event: ServerEvent): Step
    requires event.ThreadAccepted?
  {
    PublishLocal(i, UserScope(event.receiverUserId), event)
  }

  // The handler's course at instance i, with anything else going on beside it:
  // from c the first local broadcast leads to d1; in `mid` its Redis publish
  // ends; the second local broadcast leads from d2 to d3; `rest` goes on to e.
  ghost predicate Handled(
    c: Cluster, i: Id, event: ServerEvent, mid: seq<Step>, rest: seq<Step>,
    d1: Cluster, d2: Cluster, d3: Cluster, e: Cluster)
  {
    && Inv(c) && i in c.nodes && event.ThreadAccepted? && event.requesterUserId != event.receiverUserId
    && d1 == Next(c, ToRequester(i, event))
    && WellFormed(d1) && Feasible(d1, mid) && d2 == RunSteps(d1, mid)
    && |c.log| !in d2.pending && i in d2.nodes
    && d3 == Next(d2, ToReceiver(i, event))
    && WellFormed(d3) && Feasible(d3, rest) && e == RunSteps(d3, rest)
  }

  // ---------------------------------------------------------- same instance

  // Connection k of instance j is the user's for as long as it is registered.
  ghost predicate Belongs(c: Cluster, j: Id, k: Id, user: Id) {
    && j in c.nodes && k in c.nodes[j].hub.queues
    && (k in c.nodes[j].hub.connections ==> c.nodes[j].hub.connections[k].userId == user)
  }

  lemma HubCallKeepsUser(s: HubState<Tagged>, op: HubOp<Tagged>, k: Id)
    requires LegalOp(s, op) && k in s.queues && k in Apply(s, op).connections
    ensures k in s.connections && Apply(s, op).connections[k].userId == s.connections[k].userId
  {
  }

  lemma StepKeepsUser(c: Cluster, step: Step, j: Id, k: Id, user: Id)
    requires WellFormed(c) && Enabled(c, step) && Belongs(c, j, k, user)
    ensures Belongs(Next(c, step), j, k, user)
  {
    QueuesRemain(c, step, j, k);
    match step
    case Receive(i) => DispatchReachesItsAudience(c.nodes[i].hub, c.nodes[i].inbox[0].event);
    case HubCall(i, op) =>
      if i == j && k in Apply(c.nodes[j].hub, op).connections {
        HubCallKeepsUser(c.nodes[j].hub, op, k);
      }
    case _ =>
  }

  lemma {:induction false} RunKeepsUser(c: Cluster, steps: seq<Step>, j: Id, k: Id, user: Id)
    requires WellFormed(c) && Feasible(c, steps) && Belongs(c, j, k, user)
    ensures Belongs(RunSteps(c, steps), j, k, user)
    decreases |steps|
  {
    if steps == [] {
    } else {
      StepKeepsUser(c, steps[0], j, k, user);
      NextKeepsWellFormed(c, steps[0]);
      RunKeepsUser(Next(c, steps[0]), steps[1..], j, k, user);
    }
  }

  // A connection in the audience of the event is one of the two users'.
  lemma AudienceUser(hub: HubState<Tagged>, event: ServerEvent, k: Id)
    requires event.ThreadAccepted? && k in Audience(hub, event)
    ensures k in hub.connections
    ensures hub.connections[k].userId == event.requesterUserId || hub.connections[k].userId == event.receiverUserId
    ensures forall u :: k in Recipients(hub, UserScope(u)) <==> hub.connections[k].userId == u
  {
    UnionOf(hub, UserScope(event.requesterUserId), UserScope(event.receiverUserId));
  }

  // Publish calls are numbered once and for all.
  lemma {:induction false} RunKeepsLog(c: Cluster, steps: seq<Step>)
    requires WellFormed(c) && Feasible(c, steps)
    ensures c.log <= RunSteps(c, steps).log
    decreases |steps|
  {
    if steps == [] {
    } else {
      NextKeepsWellFormed(c, steps[0]);
      assert c.log <= Next(c, steps[0]).log;
      RunKeepsLog(Next(c, steps[0]), steps[1..]);
    }
  }

  // At the accepting instance a connection of either user that is registered
  // at both broadcasts has one copy from then on, whatever happens later.
  lemma AcceptedArrivesOnceLocally(
    c: Cluster, i: Id, event: ServerEvent, mid: seq<Step>, rest: seq<Step>,
    d1: Cluster, d2: Cluster, d3: Cluster, e: Cluster, k: Id)
    requires Handled(c, i, event, mid, rest, d1, d2, d3, e)
    requires k in Audience(c.nodes[i].hub, event) && k in Audience(d2.nodes[i].hub, event)
    ensures Got(e, i, k, |c.log|) + Got(e, i, k, |d2.log|) == 1
  {
    var user := c.nodes[i].hub.connections[k].userId;
    var p, q := |c.log|, |d2.log|;
    AudienceUser(c.nodes[i].hub, event, k);
    AudienceUser(d2.nodes[i].hub, event, k);
    LocalPublishCopies(c, i, UserScope(event.requesterUserId), event, k);
    StepKeepsUser(c, ToRequester(i, event), i, k, user);
    RunKeepsUser(d1, mid, i, k, user);
    NextKeepsInv(c, ToRequester(i, event));
    RunKeepsInv(d1, mid);
    RunKeepsLog(d1, mid);
    OwnCopiesAreFinal(d1, mid, i, k, p);
    LocalPublishCopies(d2, i, UserScope(event.receiverUserId), event, k);
    OwnCopiesAreFinal(d3, rest, i, k, p);
    OwnCopiesAreFinal(d3, rest, i, k, q);
  }

  // --------------------------------------------------------- other instances

  lemma {:induction false} SteadyRunEnds(c: Cluster, steps: seq<Step>, j: Id, k: Id, p: nat)
    requires WellFormed(c) && Steady(c, steps, j, k, p)
    ensures Feasible(c, steps) && Attentive(RunSteps(c, steps), j, k, p)
    decreases |steps|
  {
    if steps == [] {
    } else {
      NextKeepsWellFormed(c, steps[0]);
      SteadyRunEnds(Next(c, steps[0]), steps[1..], j, k, p);
    }
  }

  // At any other instance that keeps listening, a connection of either user
  // that stays registered gets both copies, once both were sent and read.
  lemma AcceptedArrivesTwiceRemotely(
    c: Cluster, i: Id, event: ServerEvent, mid: seq<Step>, rest: seq<Step>,
    d1: Cluster, d2: Cluster, d3: Cluster, e: Cluster, j: Id, k: Id)
    requires Handled(c, i, event, mid, rest, d1, d2, d3, e) && i != j
    requires j in c.nodes && k in Audience(c.nodes[j].hub, event)
    requires j in d2.nodes && k in Audience(d2.nodes[j].hub, event)
    requires Steady(d1, mid, j, k, |c.log|)
    requires Steady(d3, rest, j, k, |c.log|) && Steady(d3, rest, j, k, |d2.log|)
    ensures Drained(e, j, |c.log|) && Drained(e, j, |d2.log|) ==>
              Got(e, j, k, |c.log|) + Got(e, j, k, |d2.log|) == 2
  {
    PublishCovers(c, i, UserScope(event.requesterUserId), event, j, k);
    SteadyRun(d1, mid, j, k, |c.log|);
    SteadyRunEnds(d1, mid, j, k, |c.log|);
    PublishCovers(d2, i, UserScope(event.receiverUserId), event, j, k);
    StepKeepsCovered(d2, ToReceiver(i, event), j, k, |c.log|);
    SteadyRunDeliversOnce(d3, rest, j, k, |c.log|);
    SteadyRunDeliversOnce(d3, rest, j, k, |d2.log|);
  }

  // TWICE EXACTLY ELSEWHERE. How many copies of an acceptance a connection of
  // either user gets depends on nothing but the instance it is connected to.
  lemma AcceptedCopies(
    c: Cluster, i: Id, event: ServerEvent, mid: seq<Step>, rest: seq<Step>,
    d1: Cluster, d2: Cluster, d3: Cluster, e: Cluster, j: Id, k: Id)
    requires Handled(c, i, event, mid, rest, d1, d2, d3, e)
    requires j in c.nodes && k in Audience(c.nodes[j].hub, event)
    requires j in d2.nodes && k in Audience(d2.nodes[j].hub, event)
    requires i != j ==>
               Steady(d1, mid, j, k, |c.log|) && Steady(d3, rest, j, k, |c.log|) && Steady(d3, rest, j, k, |d2.log|)
    ensures i == j || (Drained(e, j, |c.log|) && Drained(e, j, |d2.log|)) ==>
              Got(e, j, k, |c.log|) + Got(e, j, k, |d2.log|) == if i == j then 1 else 2
  {
    if i == j {
      AcceptedArrivesOnceLocally(c, i, event, mid, rest, d1, d2, d3, e, k);
    } else {
      AcceptedArrivesTwiceRemotely(c, i, event, mid, rest, d1, d2, d3, e, j, k);
    }
  }

  // --------------------------------------------------------------- a witness

  // What a listening instance looks like on the way: its inbox, and a
  // connection in the audience of the event.
  ghost predicate Waiting(c: Cluster, event: ServerEvent, j: Id, k: Id, inbox: seq<Envelope>) {
    && WellFormed(c) && j in c.nodes && c.nodes[j].subscribed == |SUBSCRIPTIONS|
    && k in Audience(c.nodes[j].hub, event) && c.nodes[j].inbox == inbox
  }

  // A full session finds one copy of what was published to a user in its inbox.
  lemma SentOnce(c: Cluster, p: nat, idText: string, event: ServerEvent, j: Id, k: Id, inbox: seq<Envelope>)
    requires Waiting(c, event, j, k, inbox) && p in c.pending
    ensures var env := Envelope(c.log[p].origin, Tagged(c.log[p].event, Some(p)));
            Waiting(Next(c, PublishRemote(p, idText)), event, j, k, inbox + [env])
  {
    NextKeepsWellFormed(c, PublishRemote(p, idText));
    EachTopicMatchesOnce(c.log[p].scope, idText, |SUBSCRIPTIONS|);
    assert SUBSCRIPTIONS[..|SUBSCRIPTIONS|] == SUBSCRIPTIONS;
    var env := Envelope(c.log[p].origin, Tagged(c.log[p].event, Some(p)));
    assert Sent(|SUBSCRIPTIONS|, TopicName(c.log[p].scope, idText), env) == [env];
  }

  lemma ReadOnce(c: Cluster, event: ServerEvent, j: Id, k: Id, inbox: seq<Envelope>)
    requires Waiting(c, event, j, k, inbox) && inbox != []
    ensures Waiting(Next(c, Receive(j)), event, j, k, inbox[1..])
  {
    NextKeepsWellFormed(c, Receive(j));
    DispatchReachesItsAudience(c.nodes[j].hub, inbox[0].event);
  }

  lemma SteadyStep(c: Cluster, step: Step, rest: seq<Step>, j: Id, k: Id, p: nat)
    requires WellFormed(c) && Attentive(c, j, k, p) && Enabled(c, step)
    requires step != Disconnect(j) && step != PublishFailed(p)
    requires WellFormed(Next(c, step)) && Steady(Next(c, step), rest, j, k, p)
    ensures Steady(c, [step] + rest, j, k, p)
  {
    assert ([step] + rest)[1..] == rest;
  }

  // The end of the course: the second publish is sent, and both are read.
  lemma SecondHalf(d3: Cluster, event: ServerEvent, p: nat, q: nat, b: string, j: Id, k: Id, env: Envelope)
    returns (e: Cluster)
    requires Waiting(d3, event, j, k, [env]) && p < q < |d3.log| && q in d3.pending && p !in d3.pending
    requires d3.log[p].event == event && d3.log[q].event == event
    ensures var rest := [PublishRemote(q, b)] + ([Receive(j)] + ([Receive(j)] + []));
            && Steady(d3, rest, j, k, p) && Steady(d3, rest, j, k, q) && Feasible(d3, rest) && e == RunSteps(d3, rest)
    ensures Drained(e, j, p) && Drained(e, j, q)
  {
    var sent := Next(d3, PublishRemote(q, b));
    SentOnce(d3, q, b, event, j, k, [env]);
    var read := Next(sent, Receive(j));
    ReadOnce(sent, event, j, k, sent.nodes[j].inbox);
    e := Next(read, Receive(j));
    ReadOnce(read, event, j, k, read.nodes[j].inbox);
    forall call | call == p || call == q
      ensures Steady(d3, [PublishRemote(q, b)] + ([Receive(j)] + ([Receive(j)] + [])), j, k, call)
    {
      SteadyStep(read, Receive(j), [], j, k, call);
      SteadyStep(sent, Receive(j), [Receive(j)] + [], j, k, call);
      SteadyStep(d3, PublishRemote(q, b), [Receive(j)] + ([Receive(j)] + []), j, k, call);
    }
    FeasibleStep(read, Receive(j), []);
    FeasibleStep(sent, Receive(j), [Receive(j)] + []);
    FeasibleStep(d3, PublishRemote(q, b), [Receive(j)] + ([Receive(j)] + []));
  }

  // From any cluster in which a listening instance with an empty inbox has a
  // connection of either user, the handler alone makes it get two copies.
  lemma AcceptFromRest(c: Cluster, i: Id, event: ServerEvent, a: string, b: string, j: Id, k: Id)
    returns (d1: Cluster, d2: Cluster, d3: Cluster, e: Cluster)
    requires Inv(c) && i in c.nodes && i != j && event.ThreadAccepted? && event.requesterUserId != event.receiverUserId
    requires Waiting(c, event, j, k, [])
    ensures var mid := [PublishRemote(|c.log|, a)] + [];
            var rest := [PublishRemote(|d2.log|, b)] + ([Receive(j)] + ([Receive(j)] + []));
            Handled(c, i, event, mid, rest, d1, d2, d3, e)
    ensures |d2.log| == |c.log| + 1
    ensures Got(e, j, k, |c.log|) + Got(e, j, k, |d2.log|) == 2
  {
    var p := |c.log|;
    d1 := Next(c, ToRequester(i, event));
    NextKeepsWellFormed(c, ToRequester(i, event));
    d2 := Next(d1, PublishRemote(p, a));
    SentOnce(d1, p, a, event, j, k, []);
    SteadyStep(d1, PublishRemote(p, a), [], j, k, p);
    FeasibleStep(d1, PublishRemote(p, a), []);
    d3 := Next(d2, ToReceiver(i, event));
    NextKeepsWellFormed(d2, ToReceiver(i, event));
    e := SecondHalf(d3, event, p, |d2.log|, b, j, k, d2.nodes[j].inbox[0]);
    AcceptedArrivesTwiceRemotely(
      c, i, event, [PublishRemote(p, a)] + [], [PublishRemote(|d2.log|, b)] + ([Receive(j)] + ([Receive(j)] + [])),
      d1, d2, d3, e, j, k);
  }

  // The remaining subscriptions make an instance listen.
  lemma {:induction false} Listening(s: Cluster, event: ServerEvent, j: Id, k: Id)
    returns (steps: seq<Step>, c: Cluster)
    requires WellFormed(s) && j in s.nodes && s.nodes[j].inbox == [] && k in Audience(s.nodes[j].hub, event)
    ensures Feasible(s, steps) && c == RunSteps(s, steps) && Waiting(c, event, j, k, [])
    ensures c.log == s.log && c.nodes.Keys == s.nodes.Keys
    decreases |SUBSCRIPTIONS| - s.nodes[j].subscribed
  {
    if s.nodes[j].subscribed == |SUBSCRIPTIONS| {
      steps, c := [], s;
    } else {
      var t := Next(s, Subscribe(j));
      NextKeepsWellFormed(s, Subscribe(j));
      steps, c := Listening(t, event, j, k);
      FeasibleStep(s, Subscribe(j), steps);
      steps := [Subscribe(j)] + steps;
    }
  }

  lemma RequesterHears(k: Id, event: ServerEvent)
    requires event.ThreadAccepted?
    ensures k in Audience(Registered(EmptyHub(), k, event.requesterUserId, 0), event)
  {
    var hub := Registered<Tagged>(EmptyHub(), k, event.requesterUserId, 0);
    assert InScope(hub.connections[k], UserScope(event.requesterUserId));
  }

  // Registering a connection of the requester puts it in the audience.
  lemma RegisteredListens(s: Cluster, j: Id, k: Id, event: ServerEvent)
    requires WellFormed(s) && j in s.nodes && s.nodes[j].hub == EmptyHub() && event.ThreadAccepted?
    ensures var register := HubCall(j, HubOp<Tagged>.Register(k, event.requesterUserId, 0));
            && Enabled(s, register) && WellFormed(Next(s, register))
            && k in Audience(Next(s, register).nodes[j].hub, event)
  {
    var register := HubCall(j, HubOp<Tagged>.Register(k, event.requesterUserId, 0));
    NextKeepsWellFormed(s, register);
    RequesterHears(k, event);
  }

  lemma ListeningCluster(event: ServerEvent) returns (steps: seq<Step>, c: Cluster)
    requires event.ThreadAccepted?
    ensures Feasible(Start({0, 1}), steps) && c == RunSteps(Start({0, 1}), steps)
    ensures Inv(c) && c.log == [] && 0 in c.nodes && Waiting(c, event, 1, 7, [])
  {
    var register := HubCall(1, HubOp<Tagged>.Register(7, event.requesterUserId, 0));
    var s0 := Start({0, 1});
    RegisteredListens(s0, 1, 7, event);
    var s1 := Next(s0, register);
    steps, c := Listening(s1, event, 1, 7);
    FeasibleStep(s0, register, steps);
    steps := [register] + steps;
    RunKeepsInv(s0, steps);
  }

  // A run that gets there: of two fresh instances the second registers a
  // connection of the requester and subscribes.
  lemma DoubleDelivery(requester: Id, receiver: Id, thread: Id)
    returns (steps: seq<Step>, c: Cluster, d1: Cluster, d2: Cluster, d3: Cluster, e: Cluster)
    requires requester != receiver
    ensures var event := ThreadAccepted(thread, receiver, requester, receiver);
            var mid := [PublishRemote(0, "requester")] + [];
            var rest := [PublishRemote(1, "receiver")] + ([Receive(1)] + ([Receive(1)] + []));
            && Feasible(Start({0, 1}), steps) && c == RunSteps(Start({0, 1}), steps)
            && Handled(c, 0, event, mid, rest, d1, d2, d3, e)
            && Got(e, 1, 7, 0) + Got(e, 1, 7, 1) == 2
  {
    var event := ThreadAccepted(thread, receiver, requester, receiver);
    steps, c := ListeningCluster(event);
    d1, d2, d3, e := AcceptFromRest(c, 0, event, "requester", "receiver", 1, 7);
  }
}
