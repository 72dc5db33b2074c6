/**
 Presence over several instances. Each hub counts the connections it has itself
 and publishes a user as online or offline by that count alone.
 */
module ClusterPresence {
  import opened Base
  import opened Gateway
  import opened Fanout

  ghost predicate ConnectedAnywhere(c: Cluster, u: Id) {
    exists j :: j in c.nodes && Connected(c.nodes[j].hub, u)
  }

  ghost predicate ConnectedElsewhere(c: Cluster, j: Id, u: Id) {
    exists i :: i in c.nodes && i != j && Connected(c.nodes[i].hub, u)
  }

  // A hub call at one instance leaves the others' connections alone.
  lemma HubCallIsLocal(c: Cluster, j: Id, op: HubOp<Tagged>, u: Id)
    requires WellFormed(c) && Enabled(c, HubCall(j, op))
    ensures var d := Next(c, HubCall(j, op));
            && j in d.nodes
            && (ConnectedElsewhere(d, j, u) <==> ConnectedElsewhere(c, j, u))
            && (ConnectedAnywhere(d, u) <==> Connected(Apply(c.nodes[j].hub, op), u) || ConnectedElsewhere(c, j, u))
            && (ConnectedAnywhere(c, u) <==> Connected(c.nodes[j].hub, u) || ConnectedElsewhere(c, j, u))
  {
    var d := Next(c, HubCall(j, op));
    assert forall i :: i in d.nodes && i != j ==> d.nodes[i] == c.nodes[i];
    assert d.nodes[j].hub == Apply(c.nodes[j].hub, op);
    assert forall i :: i in d.nodes <==> i in c.nodes;
  }

  // EXACTLY ALONE. A notice of one hub reports a change of the user's presence
  // in the whole cluster exactly when no other instance has a connection of
  // the user; otherwise the user is connected before and after.
  lemma NoticeInCluster(c: Cluster, j: Id, op: HubOp<Tagged>, u: Id)
    requires WellFormed(c) && Enabled(c, HubCall(j, op)) && !op.ShutdownAll? && Notice(c.nodes[j].hub, op, u) != []
    ensures var d := Next(c, HubCall(j, op));
            && (ConnectedAnywhere(c, u) != ConnectedAnywhere(d, u) <==> !ConnectedElsewhere(c, j, u))
            && (Notice(c.nodes[j].hub, op, u) == [ConnectedAnywhere(d, u)] <==>
                  Connected(Apply(c.nodes[j].hub, op), u) || !ConnectedElsewhere(c, j, u))
  {
    NoticeIsTheChange(c.nodes[j].hub, op, u);
    HubCallIsLocal(c, j, op, u);
  }

  // OFFLINE. The offline notice of an instance agrees with the cluster exactly
  // when no other instance has a connection of the user.
  lemma OfflineInCluster(c: Cluster, j: Id, k: Id)
    requires WellFormed(c) && j in c.nodes && k in c.nodes[j].hub.connections && BecameOffline(c.nodes[j].hub, k)
    ensures var u := c.nodes[j].hub.connections[k].userId;
            !ConnectedAnywhere(Next(c, HubCall(j, HubOp<Tagged>.Unregister(k))), u) <==> !ConnectedElsewhere(c, j, u)
  {
    var u := c.nodes[j].hub.connections[k].userId;
    BecameOfflineMeaning(c.nodes[j].hub, k);
    HubCallIsLocal(c, j, HubOp<Tagged>.Unregister(k), u);
  }

  function Joining(j: Id, k: Id, u: Id): Step {
    HubCall(j, HubOp<Tagged>.Register(k, u, 0))
  }

  lemma OneConnection(k: Id, u: Id)
    ensures var hub := Registered<Tagged>(EmptyHub(), k, u, 0);
            Connected(hub, u) && Notice(hub, HubOp<Tagged>.Unregister(k), u) == [false]
  {
    var hub := Registered<Tagged>(EmptyHub(), k, u, 0);
    assert k in Recipients(hub, UserScope(u));
  }

  // A run in which it does not: a user with a connection at each of two
  // instances is published as offline when the one at the second goes.
  lemma OfflineWhileConnected(u: Id) returns (steps: seq<Step>, c: Cluster)
    ensures Feasible(Start({0, 1}), steps) && c == RunSteps(Start({0, 1}), steps) && 1 in c.nodes
    ensures var d := Next(c, HubCall(1, HubOp<Tagged>.Unregister(8)));
            && Notice(c.nodes[1].hub, HubOp<Tagged>.Unregister(8), u) == [false]
            && ConnectedAnywhere(d, u)
  {
    var s0 := Start({0, 1});
    var s1 := Next(s0, Joining(0, 7, u));
    NextKeepsWellFormed(s0, Joining(0, 7, u));
    c := Next(s1, Joining(1, 8, u));
    NextKeepsWellFormed(s1, Joining(1, 8, u));
    FeasibleStep(s1, Joining(1, 8, u), []);
    FeasibleStep(s0, Joining(0, 7, u), [Joining(1, 8, u)] + []);
    steps := [Joining(0, 7, u)] + ([Joining(1, 8, u)] + []);
    OneConnection(7, u);
    OneConnection(8, u);
    assert c.nodes[0].hub == Registered(EmptyHub(), 7, u, 0) && c.nodes[1].hub == Registered(EmptyHub(), 8, u, 0);
    assert ConnectedElsewhere(c, 1, u);
    HubCallIsLocal(c, 1, HubOp<Tagged>.Unregister(8), u);
  }
}
