/**
 The order of delivery in a cluster: what a listening instance reads is what was
 sent to it, in the order it was sent, and what a connection's queue holds is
 what was pushed to it, in the order it was pushed.
 */
module DeliveryOrder {
  import opened Base
  import opened Protocol
  import opened Gateway
  import opened Fanout

  // ----------------------------------------------------------------- inboxes

  // Instance j has all its subscriptions throughout the run.
  ghost predicate Listens(c: Cluster, steps: seq<Step>, j: Id)
    requires WellFormed(c) && Feasible(c, steps)
    decreases |steps|
  {
    && j in c.nodes && c.nodes[j].subscribed == |SUBSCRIPTIONS|
    && (steps == [] || (NextKeepsWellFormed(c, steps[0]); Listens(Next(c, steps[0]), steps[1..], j)))
  }

  // What a step sends to every listening instance.
  ghost function Arriving(c: Cluster, step: Step): seq<Envelope>
    requires WellFormed(c) && Enabled(c, step)
  {
    match step
    case PublishRemote(p, _) => [Envelope(c.log[p].origin, Tagged(c.log[p].event, Some(p)))]
    case ForeignPublish(_, event, _) => [Envelope(None, Tagged(event, Some(|c.log|)))]
    case _ => []
  }

  // What a step reads at instance j.
  ghost function Taken(c: Cluster, step: Step, j: Id): seq<Envelope>
    requires WellFormed(c) && Enabled(c, step)
  {
    if step == Receive(j) then [c.nodes[j].inbox[0]] else []
  }

  ghost function AllArriving(c: Cluster, steps: seq<Step>): seq<Envelope>
    requires WellFormed(c) && Feasible(c, steps)
    decreases |steps|
  {
    if steps == [] then []
    else NextKeepsWellFormed(c, steps[0]); Arriving(c, steps[0]) + AllArriving(Next(c, steps[0]), steps[1..])
  }

  ghost function AllTaken(c: Cluster, steps: seq<Step>, j: Id): seq<Envelope>
    requires WellFormed(c) && Feasible(c, steps)
    decreases |steps|
  {
    if steps == [] then []
    else NextKeepsWellFormed(c, steps[0]); Taken(c, steps[0], j) + AllTaken(Next(c, steps[0]), steps[1..], j)
  }

  lemma SentOnceToFull(scope: Scope, idText: string, env: Envelope)
    ensures Sent(|SUBSCRIPTIONS|, TopicName(scope, idText), env) == [env]
  {
    EachTopicMatchesOnce(scope, idText, |SUBSCRIPTIONS|);
  }

  lemma StepFirstInFirstOut(c: Cluster, step: Step, j: Id)
    requires WellFormed(c) && Enabled(c, step) && j in c.nodes && c.nodes[j].subscribed == |SUBSCRIPTIONS|
    requires step != Disconnect(j)
    ensures j in Next(c, step).nodes
    ensures c.nodes[j].inbox + Arriving(c, step) == Taken(c, step, j) + Next(c, step).nodes[j].inbox
  {
    match step
    case PublishRemote(p, idText) =>
      SentOnceToFull(c.log[p].scope, idText, Envelope(c.log[p].origin, Tagged(c.log[p].event, Some(p))));
    case ForeignPublish(scope, event, idText) =>
      SentOnceToFull(scope, idText, Envelope(None, Tagged(event, Some(|c.log|))));
    case _ =>
  }

  lemma Regroup<T>(a: seq<T>, b: seq<T>, x: seq<T>, y: seq<T>, c: seq<T>, d: seq<T>, e: seq<T>)
    requires a + b == x + y && y + c == d + e
    ensures a + (b + c) == (x + d) + e
  {
    assert a + (b + c) == (a + b) + c;
    assert (x + y) + c == x + (y + c);
    assert x + (d + e) == (x + d) + e;
  }

  // FIRST IN, FIRST OUT. Over every run throughout which an instance listens,
  // it reads what lay in its inbox and what is sent, in that order, and loses
  // nothing: the rest still lies there.
  lemma {:induction false} InboxIsFifo(c: Cluster, steps: seq<Step>, j: Id)
    requires WellFormed(c) && Feasible(c, steps) && Listens(c, steps, j)
    ensures j in RunSteps(c, steps).nodes
    ensures c.nodes[j].inbox + AllArriving(c, steps) == AllTaken(c, steps, j) + RunSteps(c, steps).nodes[j].inbox
    decreases |steps|
  {
    if steps == [] {
      assert c.nodes[j].inbox + [] == [] + c.nodes[j].inbox;
    } else {
      var d := Next(c, steps[0]);
      NextKeepsWellFormed(c, steps[0]);
      StepFirstInFirstOut(c, steps[0], j);
      InboxIsFifo(d, steps[1..], j);
      Regroup(
        c.nodes[j].inbox, Arriving(c, steps[0]), Taken(c, steps[0], j), d.nodes[j].inbox,
        AllArriving(d, steps[1..]), AllTaken(d, steps[1..], j), RunSteps(d, steps[1..]).nodes[j].inbox);
    }
  }

  // ------------------------------------------------------------------ queues

  // What a step is meant to push to connection k of instance j.
  ghost function PushedAt(c: Cluster, step: Step, j: Id, k: Id): seq<Tagged>
    requires WellFormed(c) && Enabled(c, step) && j in c.nodes
  {
    var hub := c.nodes[j].hub;
    match step
    case PublishLocal(i, scope, event) =>
      var t := Tagged(event, Some(|c.log|));
      if i == j then Pushed(hub, HubOp.Broadcast(scope, t), k) else []
    case Receive(i) =>
      var env := c.nodes[i].inbox[0];
      if i == j && env.origin != Some(j) && k in Audience(hub, env.event.event) then [env.event] else []
    case HubCall(i, op) => if i == j then Pushed(hub, op, k) else []
    case _ => []
  }

  ghost function AllPushedAt(c: Cluster, steps: seq<Step>, j: Id, k: Id): seq<Tagged>
    requires WellFormed(c) && Feasible(c, steps) && j in c.nodes
    decreases |steps|
  {
    if steps == [] then []
    else
      NextKeepsWellFormed(c, steps[0]);
      PushedAt(c, steps[0], j, k) + AllPushedAt(Next(c, steps[0]), steps[1..], j, k)
  }

  lemma StepPushes(c: Cluster, step: Step, j: Id, k: Id)
    requires WellFormed(c) && Enabled(c, step) && j in c.nodes && k in c.nodes[j].hub.queues
    ensures j in Next(c, step).nodes && k in Next(c, step).nodes[j].hub.queues
    ensures Next(c, step).nodes[j].hub.queues[k] == c.nodes[j].hub.queues[k] + PushedAt(c, step, j, k)
  {
    var hub := c.nodes[j].hub;
    match step
    case PublishLocal(i, scope, event) =>
      if i == j {
        ApplyPushes(hub, HubOp.Broadcast(scope, Tagged(event, Some(|c.log|))), k);
      }
    case Receive(i) =>
      if i == j {
        DispatchReachesItsAudience(hub, c.nodes[j].inbox[0].event);
      }
    case HubCall(i, op) =>
      if i == j {
        ApplyPushes(hub, op, k);
      }
    case _ =>
  }

  lemma Associates<T>(a: seq<T>, b: seq<T>, c: seq<T>)
    ensures (a + b) + c == a + (b + c) && a + [] == a
  {
  }

  // IN ORDER. Over every run of the cluster a connection's queue keeps what it
  // holds and grows at its end by what the steps push to it, in their order.
  lemma {:induction false} QueueGrowsInOrder(c: Cluster, steps: seq<Step>, j: Id, k: Id)
    requires WellFormed(c) && Feasible(c, steps) && j in c.nodes && k in c.nodes[j].hub.queues
    ensures var d := RunSteps(c, steps);
            && j in d.nodes && k in d.nodes[j].hub.queues
            && d.nodes[j].hub.queues[k] == c.nodes[j].hub.queues[k] + AllPushedAt(c, steps, j, k)
    decreases |steps|
  {
    var q := c.nodes[j].hub.queues[k];
    if steps == [] {
      Associates(q, [], []);
    } else {
      var d := Next(c, steps[0]);
      NextKeepsWellFormed(c, steps[0]);
      StepPushes(c, steps[0], j, k);
      QueueGrowsInOrder(d, steps[1..], j, k);
      Associates(q, PushedAt(c, steps[0], j, k), AllPushedAt(d, steps[1..], j, k));
    }
  }
}
