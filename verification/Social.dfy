/**
 Friend requests, direct threads and the messages in them: three features that
 share one pair of users and must agree about it after every step.

 Each repository call is one step. Sending a message is two, the access check
 and the insert, and other steps may come between them.
 */
module Social {
  import opened Base

  type Pair = (Id, Id)

  // The canonical order in which a pair of users is stored.
  function SortPair(x: Id, y: Id): Pair {
    if x < y then (x, y) else (y, x)
  }

  datatype RequestStatus = Pending | Accepted | Rejected

  datatype DirectStatus = Requested | Active

  datatype Thread = Thread(pair: Pair, status: DirectStatus, requestedBy: Option<Id>, acceptedAt: Option<int>)

  datatype ThreadMessage = ThreadMessage(thread: Id, author: Id)

  // `usedIds` are the thread ids ever generated; `cleared` are the (user,
  // thread) pairs whose access check has passed and whose insert is to come.
  datatype Tables = Tables(
    users: set<Id>,
    requests: map<Pair, RequestStatus>,
    friends: set<Pair>,
    threads: map<Id, Thread>,
    members: set<(Id, Id)>,
    messages: map<Id, ThreadMessage>,
    usedIds: set<Id>,
    cleared: set<(Id, Id)>)

  datatype SocialError =
    | SelfRequest | AlreadyFriends | IncomingPending | AlreadyPending | UserNotFound
    | RequestNotFound | RequestRejected
    | SelfThread | ThreadNotFound | AlreadyActive | NotPending | MissingRequester | RequesterCannotRespond
    | MustBeAccepted

  predicate AreFriends(s: Tables, x: Id, y: Id) {
    SortPair(x, y) in s.friends
  }

  predicate HasStatus(s: Tables, from: Id, to: Id, status: RequestStatus) {
    (from, to) in s.requests && s.requests[(from, to)] == status
  }

  // -------------------------------------------------------- friend requests

  // The two reads `create_friend_request` makes before it writes.
  function RequestGuard(s: Tables, from: Id, to: Id): Result<(), SocialError> {
    if AreFriends(s, from, to) then Err(AlreadyFriends)
    else if HasStatus(s, to, from, Pending) then Err(IncomingPending)
    else Ok(())
  }

  // Its write: insert, or reopen a request that was answered.
  function RequestUpserted(s: Tables, from: Id, to: Id): Tables {
    s.(requests := s.requests[(from, to) := Pending])
  }

  function RequestCreated(s: Tables, from: Id, to: Id): (Tables, Result<(), SocialError>) {
    if from == to then (s, Err(SelfRequest))
    else if RequestGuard(s, from, to).Err? then (s, RequestGuard(s, from, to))
    else if !({from, to} <= s.users) then (s, Err(UserNotFound))
    else if HasStatus(s, from, to, Pending) then (s, Err(AlreadyPending))
    else (RequestUpserted(s, from, to), Ok(()))
  }

  function Activated(threads: map<Id, Thread>, pair: Pair, now: int): map<Id, Thread> {
    map t | t in threads ::
      if threads[t].pair == pair && threads[t].status == Requested
      then
        var acceptedAt := if threads[t].acceptedAt.Some? then threads[t].acceptedAt else Some(now);
        threads[t].(status := Active, acceptedAt := acceptedAt)
      else threads[t]
  }

  // Accepting makes the users friends and opens their direct thread.
  function RequestAccepted(s: Tables, from: Id, to: Id, now: int): (Tables, Result<(), SocialError>) {
    if (from, to) !in s.requests then (s, Err(RequestNotFound))
    else if s.requests[(from, to)] == Rejected then (s, Err(RequestRejected))
    else (s.(requests := s.requests[(from, to) := Accepted],
             friends := s.friends + {SortPair(from, to)},
             threads := Activated(s.threads, SortPair(from, to), now)), Ok(()))
  }

  function RequestRejectedBy(s: Tables, from: Id, to: Id): (Tables, Result<(), SocialError>) {
    if HasStatus(s, from, to, Pending) then (s.(requests := s.requests[(from, to) := Rejected]), Ok(()))
    else (s, Err(RequestNotFound))
  }

  // --------------------------------------------------------- direct threads

  predicate HasDirect(s: Tables, x: Id, y: Id) {
    exists t :: t in s.threads && s.threads[t].pair == SortPair(x, y)
  }

  // The unique index on (kind, direct_a_user_id, direct_b_user_id).
  ghost predicate UniquePairs(s: Tables) {
    forall t, u :: t in s.threads && u in s.threads && s.threads[t].pair == s.threads[u].pair ==> t == u
  }

  function DirectOf(s: Tables, x: Id, y: Id): Id
    requires UniquePairs(s) && HasDirect(s, x, y)
  {
    var t :| t in s.threads && s.threads[t].pair == SortPair(x, y); t
  }

  // The insert of `create_or_get_direct_thread`, given the friendship it read.
  function DirectInserted(s: Tables, user: Id, peer: Id, areFriends: bool, id: Id, now: int): Tables {
    var pair := SortPair(user, peer);
    var row := if areFriends then Thread(pair, Active, None, Some(now)) else Thread(pair, Requested, Some(user), None);
    s.(threads := s.threads[id := row],
       members := s.members + {(id, pair.0), (id, pair.1)},
       usedIds := s.usedIds + {id})
  }

  // The thread of the pair, and whether this call created it.
  function CreateOrGetDirect(s: Tables, user: Id, peer: Id, id: Id, now: int): (Tables, Result<(Id, bool), SocialError>)
    requires UniquePairs(s)
  {
    if user == peer then (s, Err(SelfThread))
    else if HasDirect(s, user, peer) then (s, Ok((DirectOf(s, user, peer), false)))
    else if !({user, peer} <= s.users) then (s, Err(UserNotFound))
    else (DirectInserted(s, user, peer, AreFriends(s, user, peer), id, now), Ok((id, true)))
  }

  predicate Participant(s: Tables, t: Id, user: Id) {
    t in s.threads && (t, user) in s.members
  }

  // What a response to a direct request needs, and whose request it was.
  function ResponseGuard(s: Tables, t: Id, user: Id, otherwise: SocialError): Result<Id, SocialError> {
    if !Participant(s, t, user) then Err(ThreadNotFound)
    else if s.threads[t].status != Requested then Err(otherwise)
    else if s.threads[t].requestedBy.None? then Err(MissingRequester)
    else if s.threads[t].requestedBy.value == user then Err(RequesterCannotRespond)
    else Ok(s.threads[t].requestedBy.value)
  }

  function AcceptDirect(s: Tables, t: Id, user: Id, now: int): (Tables, Result<Id, SocialError>) {
    var guard := ResponseGuard(s, t, user, AlreadyActive);
    if guard.Err? then (s, guard)
    else (s.(threads := s.threads[t := s.threads[t].(status := Active, acceptedAt := Some(now))]), guard)
  }

  // ON DELETE CASCADE from a thread to its members and messages.
  function MembersWithout(members: set<(Id, Id)>, t: Id): set<(Id, Id)> {
    set m | m in members && m.0 != t
  }

  function MessagesWithout(messages: map<Id, ThreadMessage>, t: Id): map<Id, ThreadMessage> {
    map i | i in messages && messages[i].thread != t :: messages[i]
  }

  // Rejecting deletes the thread; its members and messages go with it.
  function RejectDirect(s: Tables, t: Id, user: Id): (Tables, Result<Id, SocialError>) {
    var guard := ResponseGuard(s, t, user, NotPending);
    if guard.Err? then (s, guard)
    else (s.(threads := s.threads - {t},
             members := MembersWithout(s.members, t),
             messages := MessagesWithout(s.messages, t)), guard)
  }

  // ---------------------------------------------------------------- messages

  function SendGuard(s: Tables, user: Id, t: Id): Result<(), SocialError> {
    if !Participant(s, t, user) then Err(ThreadNotFound)
    else if s.threads[t].status == Requested && s.threads[t].requestedBy != Some(user) then Err(MustBeAccepted)
    else Ok(())
  }

  function CheckSend(s: Tables, user: Id, t: Id): (Tables, Result<(), SocialError>) {
    if SendGuard(s, user, t).Err? then (s, SendGuard(s, user, t))
    else (s.(cleared := s.cleared + {(user, t)}), Ok(()))
  }

  // The insert asks the database for nothing but an existing thread.
  function InsertMessage(s: Tables, id: Id, user: Id, t: Id): (Tables, Result<(), SocialError>) {
    if t !in s.threads then (s, Err(ThreadNotFound))
    else (s.(messages := s.messages[id := ThreadMessage(t, user)]), Ok(()))
  }

  // --------------------------------------------------------------- invariant

  // Friends are the pairs with an accepted request; a pair has at most one
  // pending request, and none once the two are friends.
  ghost predicate FriendsConsistent(s: Tables) {
    && (forall p :: p in s.friends ==> p.0 < p.1)
    && (forall x, y :: (x, y) in s.requests ==> x != y && x in s.users && y in s.users)
    && (forall x, y :: AreFriends(s, x, y) <==> HasStatus(s, x, y, Accepted) || HasStatus(s, y, x, Accepted))
    && (forall x, y :: HasStatus(s, x, y, Pending) ==> !HasStatus(s, y, x, Pending) && !AreFriends(s, x, y))
  }

  // One thread for a pair, whose members are the pair; active exactly from the
  // moment it was accepted; while requested, by one of the two.
  ghost predicate ThreadsConsistent(s: Tables) {
    && s.threads.Keys <= s.usedIds
    && (forall t :: t in s.threads ==> s.threads[t].pair.0 < s.threads[t].pair.1)
    && UniquePairs(s)
    && (forall t, u ::
          (t, u) in s.members <==> t in s.threads && (u == s.threads[t].pair.0 || u == s.threads[t].pair.1))
    && (forall t :: t in s.threads ==> (s.threads[t].status == Active <==> s.threads[t].acceptedAt.Some?))
    && (forall t :: t in s.threads && s.threads[t].status == Requested ==>
          || s.threads[t].requestedBy == Some(s.threads[t].pair.0)
          || s.threads[t].requestedBy == Some(s.threads[t].pair.1))
  }

  // The direct thread of friends is active.
  ghost predicate FriendsTalk(s: Tables) {
    forall t :: t in s.threads && s.threads[t].pair in s.friends ==> s.threads[t].status == Active
  }

  // A requested thread holds messages of its requester alone, and only the
  // requester is cleared to add one.
  ghost predicate RequesterWrites(s: Tables) {
    && (forall i :: i in s.messages ==> s.messages[i].thread in s.threads)
    && (forall u, t :: (u, t) in s.cleared ==> t in s.usedIds)
    && (forall u, t :: (u, t) in s.cleared && t in s.threads && s.threads[t].status == Requested ==>
          s.threads[t].requestedBy == Some(u))
    && (forall i :: i in s.messages && s.threads[s.messages[i].thread].status == Requested ==>
          s.threads[s.messages[i].thread].requestedBy == Some(s.messages[i].author))
  }

  ghost predicate Consistent(s: Tables) {
    FriendsConsistent(s) && ThreadsConsistent(s) && FriendsTalk(s) && RequesterWrites(s)
  }

  // The users exist; nothing else does yet.
  function NoRows(users: set<Id>): (s: Tables)
    ensures Consistent(s)
  {
    Tables(users, map[], {}, map[], {}, map[], {}, {})
  }

  // ------------------------------------------------------------------ steps

  datatype Op =
    | Request(from: Id, to: Id)
    | AcceptRequest(from: Id, to: Id, now: int)
    | RejectRequest(from: Id, to: Id)
    | OpenDirect(user: Id, peer: Id, id: Id, now: int)
    | AcceptThread(thread: Id, user: Id, now: int)
    | RejectThread(thread: Id, user: Id)
    | Check(user: Id, thread: Id)
    | Insert(id: Id, user: Id, thread: Id)

  // Generated ids are new, and an insert follows its own passed check.
  predicate Allowed(s: Tables, op: Op) {
    match op
    case OpenDirect(_, _, id, _) => id !in s.usedIds
    case Insert(id, user, t) => id !in s.messages && (user, t) in s.cleared
    case _ => true
  }

  ghost function Next(s: Tables, op: Op): Tables
    requires UniquePairs(s)
  {
    match op
    case Request(from, to) => RequestCreated(s, from, to).0
    case AcceptRequest(from, to, now) => RequestAccepted(s, from, to, now).0
    case RejectRequest(from, to) => RequestRejectedBy(s, from, to).0
    case OpenDirect(user, peer, id, now) => CreateOrGetDirect(s, user, peer, id, now).0
    case AcceptThread(t, user, now) => AcceptDirect(s, t, user, now).0
    case RejectThread(t, user) => RejectDirect(s, t, user).0
    case Check(user, t) => CheckSend(s, user, t).0
    case Insert(id, user, t) => InsertMessage(s, id, user, t).0
  }

  lemma SortPairFacts(x: Id, y: Id)
    ensures SortPair(x, y) == SortPair(y, x)
    ensures x != y ==> SortPair(x, y).0 < SortPair(x, y).1
    ensures forall u, v :: SortPair(u, v) == SortPair(x, y) ==> (u == x && v == y) || (u == y && v == x)
  {
  }

  lemma AcceptKeepsFriends(s: Tables, from: Id, to: Id, now: int)
    requires FriendsConsistent(s)
    ensures FriendsConsistent(RequestAccepted(s, from, to, now).0)
  {
    var t := RequestAccepted(s, from, to, now).0;
    if RequestAccepted(s, from, to, now).1.Ok? {
      SortPairFacts(from, to);
      assert !HasStatus(s, to, from, Pending) by {
        assert HasStatus(s, from, to, Pending) || HasStatus(s, from, to, Accepted);
      }
      forall x, y
        ensures AreFriends(t, x, y) <==> HasStatus(t, x, y, Accepted) || HasStatus(t, y, x, Accepted)
        ensures HasStatus(t, x, y, Pending) ==> !HasStatus(t, y, x, Pending) && !AreFriends(t, x, y)
      {
        assert AreFriends(t, x, y) <==> AreFriends(s, x, y) || SortPair(x, y) == SortPair(from, to);
      }
    }
  }

  lemma SameFriends(s: Tables, t: Tables)
    requires FriendsConsistent(s) && t.users == s.users && t.requests == s.requests && t.friends == s.friends
    ensures FriendsConsistent(t)
  {
    assert forall x, y :: AreFriends(t, x, y) <==> AreFriends(s, x, y);
    assert forall x, y, status :: HasStatus(t, x, y, status) <==> HasStatus(s, x, y, status);
  }

  lemma RejectKeepsFriends(s: Tables, from: Id, to: Id)
    requires FriendsConsistent(s)
    ensures FriendsConsistent(RequestRejectedBy(s, from, to).0)
  {
    var t := RequestRejectedBy(s, from, to).0;
    forall x, y
      ensures AreFriends(t, x, y) <==> HasStatus(t, x, y, Accepted) || HasStatus(t, y, x, Accepted)
      ensures HasStatus(t, x, y, Pending) ==> !HasStatus(t, y, x, Pending) && !AreFriends(t, x, y)
    {
      assert AreFriends(t, x, y) <==> AreFriends(s, x, y);
    }
  }

  lemma UpsertKeepsFriends(s: Tables, from: Id, to: Id)
    requires FriendsConsistent(s) && from != to && {from, to} <= s.users && RequestGuard(s, from, to).Ok?
    ensures FriendsConsistent(RequestUpserted(s, from, to))
  {
    var t := RequestUpserted(s, from, to);
    SortPairFacts(from, to);
    forall x, y
      ensures AreFriends(t, x, y) <==> HasStatus(t, x, y, Accepted) || HasStatus(t, y, x, Accepted)
      ensures HasStatus(t, x, y, Pending) ==> !HasStatus(t, y, x, Pending) && !AreFriends(t, x, y)
    {
      assert AreFriends(t, x, y) <==> AreFriends(s, x, y);
    }
  }

  lemma ThreadStepKeepsFriends(s: Tables, op: Op)
    requires FriendsConsistent(s) && UniquePairs(s) && !op.Request? && !op.AcceptRequest? && !op.RejectRequest?
    ensures FriendsConsistent(Next(s, op))
  {
    SameFriends(s, Next(s, op));
  }

  lemma NextKeepsFriends(s: Tables, op: Op)
    requires FriendsConsistent(s) && UniquePairs(s)
    ensures FriendsConsistent(Next(s, op))
  {
    match op
    case Request(from, to) =>
      if RequestCreated(s, from, to).1.Ok? {
        UpsertKeepsFriends(s, from, to);
      }
    case AcceptRequest(from, to, now) => AcceptKeepsFriends(s, from, to, now);
    case RejectRequest(from, to) => RejectKeepsFriends(s, from, to);
    case _ => ThreadStepKeepsFriends(s, op);
  }

  lemma InsertKeepsThreads(s: Tables, user: Id, peer: Id, areFriends: bool, id: Id, now: int)
    requires ThreadsConsistent(s) && id !in s.usedIds && user != peer && !HasDirect(s, user, peer)
    ensures ThreadsConsistent(DirectInserted(s, user, peer, areFriends, id, now))
  {
    SortPairFacts(user, peer);
  }

  lemma RejectKeepsThreads(s: Tables, t: Id, user: Id)
    requires ThreadsConsistent(s)
    ensures ThreadsConsistent(RejectDirect(s, t, user).0)
  {
  }

  lemma ActivationKeepsThreads(s: Tables, from: Id, to: Id, now: int)
    requires ThreadsConsistent(s)
    ensures ThreadsConsistent(RequestAccepted(s, from, to, now).0)
  {
  }

  lemma AcceptKeepsThreads(s: Tables, t: Id, user: Id, now: int)
    requires ThreadsConsistent(s)
    ensures ThreadsConsistent(AcceptDirect(s, t, user, now).0)
  {
  }

  lemma SameThreads(s: Tables, t: Tables)
    requires ThreadsConsistent(s) && t.threads == s.threads && t.members == s.members && t.usedIds == s.usedIds
    ensures ThreadsConsistent(t)
  {
  }

  lemma NextKeepsThreads(s: Tables, op: Op)
    requires ThreadsConsistent(s) && Allowed(s, op)
    ensures ThreadsConsistent(Next(s, op))
  {
    match op
    case Request(from, to) => SameThreads(s, RequestCreated(s, from, to).0);
    case AcceptRequest(from, to, now) => ActivationKeepsThreads(s, from, to, now);
    case RejectRequest(from, to) => SameThreads(s, RequestRejectedBy(s, from, to).0);
    case OpenDirect(user, peer, id, now) =>
      if user != peer && !HasDirect(s, user, peer) {
        InsertKeepsThreads(s, user, peer, AreFriends(s, user, peer), id, now);
      }
    case AcceptThread(t, user, now) => AcceptKeepsThreads(s, t, user, now);
    case RejectThread(t, user) => RejectKeepsThreads(s, t, user);
    case Check(user, t) => SameThreads(s, CheckSend(s, user, t).0);
    case Insert(id, user, t) => SameThreads(s, InsertMessage(s, id, user, t).0);
  }

  lemma NextKeepsTalk(s: Tables, op: Op)
    requires Consistent(s) && Allowed(s, op)
    ensures FriendsTalk(Next(s, op))
  {
  }

  lemma InsertKeepsWriters(s: Tables, user: Id, peer: Id, areFriends: bool, id: Id, now: int)
    requires RequesterWrites(s) && s.threads.Keys <= s.usedIds && id !in s.usedIds
    ensures RequesterWrites(DirectInserted(s, user, peer, areFriends, id, now))
  {
  }

  lemma ActivationKeepsWriters(s: Tables, from: Id, to: Id, now: int)
    requires RequesterWrites(s)
    ensures RequesterWrites(RequestAccepted(s, from, to, now).0)
  {
  }

  lemma ResponseKeepsWriters(s: Tables, t: Id, user: Id, now: int)
    requires RequesterWrites(s)
    ensures RequesterWrites(AcceptDirect(s, t, user, now).0) && RequesterWrites(RejectDirect(s, t, user).0)
  {
  }

  lemma SendKeepsWriters(s: Tables, id: Id, user: Id, t: Id)
    requires RequesterWrites(s) && s.threads.Keys <= s.usedIds
    ensures RequesterWrites(CheckSend(s, user, t).0)
    ensures (user, t) in s.cleared ==> RequesterWrites(InsertMessage(s, id, user, t).0)
  {
  }

  lemma NextKeepsWriters(s: Tables, op: Op)
    requires ThreadsConsistent(s) && RequesterWrites(s) && Allowed(s, op)
    ensures RequesterWrites(Next(s, op))
  {
    match op
    case AcceptRequest(from, to, now) => ActivationKeepsWriters(s, from, to, now);
    case OpenDirect(user, peer, id, now) => InsertKeepsWriters(s, user, peer, AreFriends(s, user, peer), id, now);
    case AcceptThread(t, user, now) => ResponseKeepsWriters(s, t, user, now);
    case RejectThread(t, user) => ResponseKeepsWriters(s, t, user, 0);
    case Check(user, t) => SendKeepsWriters(s, 0, user, t);
    case Insert(id, user, t) => SendKeepsWriters(s, id, user, t);
    case _ =>
  }

  lemma NextKeepsConsistent(s: Tables, op: Op)
    requires Consistent(s) && Allowed(s, op)
    ensures Consistent(Next(s, op))
  {
    NextKeepsFriends(s, op);
    NextKeepsThreads(s, op);
    NextKeepsTalk(s, op);
    NextKeepsWriters(s, op);
  }

  // The thread the unique index reports is the one the call answers with.
  lemma FoundDirect(s: Tables, user: Id, peer: Id, t: Id, id: Id, now: int)
    requires Consistent(s) && user != peer && t in s.threads && s.threads[t].pair == SortPair(user, peer)
    ensures CreateOrGetDirect(s, user, peer, id, now) == (s, Ok((t, false)))
    ensures (t, SortPair(user, peer).0) in s.members && (t, SortPair(user, peer).1) in s.members
  {
  }

  lemma NewDirect(s: Tables, user: Id, peer: Id, id: Id, now: int)
    requires Consistent(s) && id !in s.usedIds && user != peer && !HasDirect(s, user, peer) && {user, peer} <= s.users
    ensures var r := DirectInserted(s, user, peer, AreFriends(s, user, peer), id, now);
            Consistent(r) && CreateOrGetDirect(s, user, peer, id, now) == (r, Ok((id, true)))
  {
    NextKeepsConsistent(s, OpenDirect(user, peer, id, now));
  }

  // A new thread between users who are not friends is the caller's request:
  // the peer may respond to it and the caller may write in it.
  lemma NewDirectIsCallersRequest(s: Tables, user: Id, peer: Id, id: Id, now: int)
    requires user != peer && !AreFriends(s, user, peer)
    ensures var r := DirectInserted(s, user, peer, false, id, now);
            && ResponseGuard(r, id, peer, NotPending) == Ok(user)
            && ResponseGuard(r, id, user, NotPending) == Err(RequesterCannotRespond)
            && SendGuard(r, user, id).Ok? && SendGuard(r, peer, id) == Err(MustBeAccepted)
  {
  }

  // Opening a direct thread, in terms of the rows.
  lemma OpenedMeans(s: Tables, user: Id, peer: Id, id: Id, now: int)
    requires Consistent(s) && id !in s.usedIds && user != peer
    ensures var (t, r) := CreateOrGetDirect(s, user, peer, id, now);
            var pair := if user < peer then (user, peer) else (peer, user);
            && (r.Err? ==> r == Err(UserNotFound) && !({user, peer} <= s.users) && t == s)
            && (r.Ok? ==> r.value.0 in t.threads && t.threads[r.value.0].pair == pair)
            && (r.Ok? ==> (r.value.1 <==> r.value.0 !in s.threads) && (!r.value.1 ==> t == s))
            && (r.Ok? && r.value.1 ==>
                  && r.value.0 == id && t.members == s.members + {(id, user), (id, peer)}
                  && t.threads == s.threads[id := if pair in s.friends then Thread(pair, Active, None, Some(now))
                                                  else Thread(pair, Requested, Some(user), None)]
                  && t.requests == s.requests && t.friends == s.friends && t.messages == s.messages
                  && (pair !in s.friends ==>
                        && ResponseGuard(t, id, peer, NotPending) == Ok(user)
                        && ResponseGuard(t, id, user, NotPending) == Err(RequesterCannotRespond)
                        && SendGuard(t, user, id).Ok? && SendGuard(t, peer, id) == Err(MustBeAccepted)))
  {
    if !AreFriends(s, user, peer) {
      NewDirectIsCallersRequest(s, user, peer, id, now);
    }
  }

  // Accepting a friend request, in terms of the rows.
  lemma AcceptedMeans(s: Tables, from: Id, to: Id, now: int)
    ensures var (t, r) := RequestAccepted(s, from, to, now);
            && r == (if (from, to) !in s.requests then Err(RequestNotFound)
                     else if s.requests[(from, to)] == Rejected then Err(RequestRejected) else Ok(()))
            && (r.Err? ==> t == s)
            && (r.Ok? ==>
                  var pair := if from < to then (from, to) else (to, from);
                  && t.requests == s.requests[(from, to) := Accepted] && t.friends == s.friends + {pair}
                  && t.threads.Keys == s.threads.Keys && t.members == s.members && t.messages == s.messages
                  && forall x :: x in t.threads ==>
                       var row := s.threads[x];
                       t.threads[x] == if row.pair == pair && row.status == Requested
                                       then Thread(pair, Active, row.requestedBy,
                                                   if row.acceptedAt == None then Some(now) else row.acceptedAt)
                                       else row)
  {
  }

  lemma SendKeepsConsistent(s: Tables, id: Id, user: Id, t: Id)
    requires Consistent(s) && id !in s.messages && SendGuard(s, user, t).Ok?
    ensures Consistent(InsertMessage(CheckSend(s, user, t).0, id, user, t).0)
  {
    NextKeepsConsistent(s, Check(user, t));
    NextKeepsConsistent(CheckSend(s, user, t).0, Insert(id, user, t));
  }

  // -------------------------------------------------------------------- runs

  ghost predicate AllowedRun(s: Tables, ops: seq<Op>)
    requires Consistent(s)
    decreases |ops|
  {
    ops == [] || (Allowed(s, ops[0]) && (NextKeepsConsistent(s, ops[0]); AllowedRun(Next(s, ops[0]), ops[1..])))
  }

  ghost function Run(s: Tables, ops: seq<Op>): Tables
    requires Consistent(s) && AllowedRun(s, ops)
    decreases |ops|
  {
    if ops == [] then s
    else NextKeepsConsistent(s, ops[0]); Run(Next(s, ops[0]), ops[1..])
  }

  lemma {:induction false} RunKeepsConsistent(s: Tables, ops: seq<Op>)
    requires Consistent(s) && AllowedRun(s, ops)
    ensures Consistent(Run(s, ops))
    decreases |ops|
  {
    if ops == [] {
    } else {
      NextKeepsConsistent(s, ops[0]);
      RunKeepsConsistent(Next(s, ops[0]), ops[1..]);
    }
  }

  // From empty tables, after any run: two users are friends exactly when a
  // request between them was accepted, no two requests cross, friends have no
  // request open and their thread, if any, is active.
  lemma FriendshipAndThreadsAgree(users: set<Id>, ops: seq<Op>, x: Id, y: Id)
    requires AllowedRun(NoRows(users), ops)
    ensures var s := Run(NoRows(users), ops);
            && (AreFriends(s, x, y) <==> HasStatus(s, x, y, Accepted) || HasStatus(s, y, x, Accepted))
            && !(HasStatus(s, x, y, Pending) && HasStatus(s, y, x, Pending))
            && (AreFriends(s, x, y) ==> !HasStatus(s, x, y, Pending) && !HasStatus(s, y, x, Pending))
            && UniquePairs(s)
            && (AreFriends(s, x, y) && HasDirect(s, x, y) ==> s.threads[DirectOf(s, x, y)].status == Active)
  {
    RunKeepsConsistent(NoRows(users), ops);
    SortPairFacts(x, y);
  }

  // A response to a requested thread always finds its requester, and exactly
  // the other participant may give it.
  lemma RespondersAreTheOtherSide(s: Tables, t: Id, user: Id, otherwise: SocialError)
    requires Consistent(s) && otherwise != MissingRequester
    ensures ResponseGuard(s, t, user, otherwise) != Err(MissingRequester)
    ensures ResponseGuard(s, t, user, otherwise).Ok? <==>
              && t in s.threads && s.threads[t].status == Requested
              && (user == s.threads[t].pair.0 || user == s.threads[t].pair.1) && s.threads[t].requestedBy != Some(user)
  {
  }

  // From empty tables, after any run: a pair has one thread at most, whose
  // members are the pair; it is active exactly once it was accepted, and while
  // it is not, a response always finds who requested it.
  lemma DirectThreadLifecycle(users: set<Id>, ops: seq<Op>, t: Id, u: Id, user: Id, otherwise: SocialError)
    requires AllowedRun(NoRows(users), ops)
    requires t in Run(NoRows(users), ops).threads && otherwise != MissingRequester
    ensures var s := Run(NoRows(users), ops);
            && (u in s.threads && s.threads[u].pair == s.threads[t].pair ==> u == t)
            && s.threads[t].pair.0 != s.threads[t].pair.1
            && ((t, user) in s.members <==> user == s.threads[t].pair.0 || user == s.threads[t].pair.1)
            && (s.threads[t].status == Active <==> s.threads[t].acceptedAt.Some?)
            && ResponseGuard(s, t, user, otherwise) != Err(MissingRequester)
  {
    RunKeepsConsistent(NoRows(users), ops);
    RespondersAreTheOtherSide(Run(NoRows(users), ops), t, user, otherwise);
  }

  // Every message of a thread that is still only requested is the requester's,
  // although its check may lie any number of steps before its insert.
  lemma PendingThreadAuthorship(s: Tables, ops: seq<Op>, i: Id)
    requires Consistent(s) && AllowedRun(s, ops)
    ensures var r := Run(s, ops);
            i in r.messages ==>
              && r.messages[i].thread in r.threads
              && var t := r.threads[r.messages[i].thread];
              t.status == Requested ==> t.requestedBy == Some(r.messages[i].author)
  {
    RunKeepsConsistent(s, ops);
  }

  ghost predicate RequestedOnlyBy(s: Tables, t: Id, user: Id) {
    t in s.usedIds && (t in s.threads && s.threads[t].status == Requested ==> s.threads[t].requestedBy == Some(user))
  }

  lemma NextKeepsRequester(s: Tables, op: Op, t: Id, user: Id)
    requires UniquePairs(s) && Allowed(s, op) && RequestedOnlyBy(s, t, user)
    ensures RequestedOnlyBy(Next(s, op), t, user)
  {
  }

  lemma {:induction false} RunKeepsRequester(s: Tables, ops: seq<Op>, t: Id, user: Id)
    requires Consistent(s) && AllowedRun(s, ops) && RequestedOnlyBy(s, t, user)
    ensures RequestedOnlyBy(Run(s, ops), t, user)
    decreases |ops|
  {
    if ops == [] {
    } else {
      NextKeepsConsistent(s, ops[0]);
      NextKeepsRequester(s, ops[0], t, user);
      RunKeepsRequester(Next(s, ops[0]), ops[1..], t, user);
    }
  }

  ghost predicate PairedIfThere(s: Tables, t: Id, pair: Pair) {
    t in s.usedIds && (t in s.threads ==> s.threads[t].pair == pair)
  }

  lemma NextKeepsPair(s: Tables, op: Op, t: Id, pair: Pair)
    requires UniquePairs(s) && Allowed(s, op) && PairedIfThere(s, t, pair)
    ensures PairedIfThere(Next(s, op), t, pair)
  {
  }

  // A thread's pair never changes.
  lemma {:induction false} RunKeepsPair(s: Tables, ops: seq<Op>, t: Id, pair: Pair)
    requires Consistent(s) && AllowedRun(s, ops) && PairedIfThere(s, t, pair)
    ensures PairedIfThere(Run(s, ops), t, pair)
    decreases |ops|
  {
    if ops == [] {
    } else {
      NextKeepsConsistent(s, ops[0]);
      NextKeepsPair(s, ops[0], t, pair);
      RunKeepsPair(Next(s, ops[0]), ops[1..], t, pair);
    }
  }

  lemma OpenedForPair(s: Tables, user: Id, peer: Id, id: Id, now: int, ops: seq<Op>)
    requires Consistent(s) && id !in s.usedIds && id in Next(s, OpenDirect(user, peer, id, now)).threads
    requires Consistent(Next(s, OpenDirect(user, peer, id, now)))
    requires AllowedRun(Next(s, OpenDirect(user, peer, id, now)), ops)
    ensures user != peer && PairedIfThere(Run(Next(s, OpenDirect(user, peer, id, now)), ops), id, SortPair(user, peer))
    ensures RequestedOnlyBy(Next(s, OpenDirect(user, peer, id, now)), id, user)
  {
    RunKeepsPair(Next(s, OpenDirect(user, peer, id, now)), ops, id, SortPair(user, peer));
  }

  // THE OPENER'S REQUEST. A thread that one user's call creates is, for as long
  // as it is pending, that user's request: every message in it is theirs, they
  // may write and may not respond, and for the peer it is the other way round.
  lemma OpenerOwnsRequest(s: Tables, user: Id, peer: Id, id: Id, now: int, ops: seq<Op>, i: Id)
    requires Consistent(s) && id !in s.usedIds && id in Next(s, OpenDirect(user, peer, id, now)).threads
    requires Consistent(Next(s, OpenDirect(user, peer, id, now)))
    requires AllowedRun(Next(s, OpenDirect(user, peer, id, now)), ops)
    ensures var r := Run(Next(s, OpenDirect(user, peer, id, now)), ops);
            id in r.threads && r.threads[id].status == Requested ==>
              && (i in r.messages && r.messages[i].thread == id ==> r.messages[i].author == user)
              && SendGuard(r, user, id).Ok? && SendGuard(r, peer, id) == Err(MustBeAccepted)
              && ResponseGuard(r, id, peer, NotPending) == Ok(user)
              && ResponseGuard(r, id, user, NotPending) == Err(RequesterCannotRespond)
  {
    var t := Next(s, OpenDirect(user, peer, id, now));
    SortPairFacts(user, peer);
    OpenedForPair(s, user, peer, id, now, ops);
    RunKeepsConsistent(t, ops);
    RunKeepsRequester(t, ops, id, user);
  }

  ghost predicate IsActive(s: Tables, t: Id, pair: Pair) {
    t in s.threads && s.threads[t].status == Active && s.threads[t].pair == pair
  }

  lemma NextKeepsActive(s: Tables, op: Op, t: Id, pair: Pair)
    requires UniquePairs(s) && Allowed(s, op) && s.threads.Keys <= s.usedIds && IsActive(s, t, pair)
    ensures IsActive(Next(s, op), t, pair)
  {
  }

  // An active thread is never deleted, reassigned or made pending again.
  lemma {:induction false} ActiveIsForever(s: Tables, ops: seq<Op>, t: Id, pair: Pair)
    requires Consistent(s) && AllowedRun(s, ops) && IsActive(s, t, pair)
    ensures IsActive(Run(s, ops), t, pair)
    decreases |ops|
  {
    if ops == [] {
    } else {
      NextKeepsConsistent(s, ops[0]);
      NextKeepsActive(s, ops[0], t, pair);
      ActiveIsForever(Next(s, ops[0]), ops[1..], t, pair);
    }
  }

  ghost predicate IsGone(s: Tables, t: Id) {
    t in s.usedIds && t !in s.threads
  }

  lemma NextKeepsGone(s: Tables, op: Op, t: Id)
    requires UniquePairs(s) && Allowed(s, op) && IsGone(s, t)
    ensures IsGone(Next(s, op), t)
  {
  }

  // A rejected thread is gone for good: neither it nor a message of it returns.
  lemma {:induction false} RejectedIsForever(s: Tables, ops: seq<Op>, t: Id)
    requires Consistent(s) && AllowedRun(s, ops) && IsGone(s, t)
    ensures var r := Run(s, ops); IsGone(r, t) && forall i :: i in r.messages ==> r.messages[i].thread != t
    decreases |ops|
  {
    if ops == [] {
    } else {
      NextKeepsConsistent(s, ops[0]);
      NextKeepsGone(s, ops[0], t);
      RejectedIsForever(Next(s, ops[0]), ops[1..], t);
    }
  }

  // The insert of a message whose check lies any number of steps back fails if
  // its thread was rejected meanwhile, and succeeds if the thread was active.
  lemma LateInsert(s: Tables, ops: seq<Op>, id: Id, user: Id, t: Id, pair: Pair)
    requires Consistent(s) && AllowedRun(s, ops)
    ensures var r := Run(s, ops);
            var (u, outcome) := InsertMessage(r, id, user, t);
            && (IsGone(s, t) ==> outcome == Err(ThreadNotFound) && u == r)
            && (IsActive(s, t, pair) ==>
                  outcome == Ok(()) && u == r.(messages := r.messages[id := ThreadMessage(t, user)]))
  {
    if IsGone(s, t) {
      RejectedIsForever(s, ops, t);
    }
    if IsActive(s, t, pair) {
      ActiveIsForever(s, ops, t, pair);
    }
  }

  // Opening a direct thread is symmetric and idempotent: a second call, from
  // either side, finds the same thread and changes nothing.
  lemma OpenIsIdempotent(s: Tables, user: Id, peer: Id, id: Id, now: int, id': Id, now': int)
    requires Consistent(s) && id !in s.usedIds && CreateOrGetDirect(s, user, peer, id, now).1.Ok?
    ensures var (r, first) := CreateOrGetDirect(s, user, peer, id, now);
            && UniquePairs(r)
            && CreateOrGetDirect(r, user, peer, id', now') == (r, Ok((first.value.0, false)))
            && CreateOrGetDirect(r, peer, user, id', now') == (r, Ok((first.value.0, false)))
            && r.threads[first.value.0].pair == SortPair(user, peer)
            && (forall u :: (first.value.0, u) in r.members <==> u == user || u == peer)
  {
    NextKeepsThreads(s, OpenDirect(user, peer, id, now));
    SortPairFacts(user, peer);
  }

  // ------------------------------------------------- what atomicity is for

  // `create_friend_request` is not a transaction: its write may land in a
  // later state than its reads. The write is harmless exactly when the guard
  // would still pass there.
  lemma LateRequestWrite(s: Tables, from: Id, to: Id)
    requires Consistent(s) && from != to && {from, to} <= s.users && !HasStatus(s, from, to, Pending)
    ensures FriendsConsistent(RequestUpserted(s, from, to)) <==> RequestGuard(s, from, to).Ok?
  {
    var t := RequestUpserted(s, from, to);
    if RequestGuard(s, from, to).Ok? {
      UpsertKeepsFriends(s, from, to);
    } else {
      assert HasStatus(t, from, to, Pending);
      assert AreFriends(t, from, to) <==> AreFriends(s, from, to);
      assert HasStatus(t, to, from, Pending) <==> HasStatus(s, to, from, Pending);
    }
  }

  // Two users asking each other at once can both pass the guard and leave two
  // crossing pending requests.
  lemma CrossingRequests(x: Id, y: Id)
    requires x != y
    ensures var s := NoRows({x, y});
            var r := RequestUpserted(RequestUpserted(s, x, y), y, x);
            && Consistent(s) && RequestGuard(s, x, y).Ok? && RequestGuard(s, y, x).Ok?
            && HasStatus(r, x, y, Pending) && HasStatus(r, y, x, Pending) && !FriendsConsistent(r)
  {
    var s := NoRows({x, y});
    assert !AreFriends(s, x, y) && !AreFriends(s, y, x);
    assert !HasStatus(s, x, y, Pending) && !HasStatus(s, y, x, Pending);
    var r := RequestUpserted(RequestUpserted(s, x, y), y, x);
    assert HasStatus(r, x, y, Pending) && HasStatus(r, y, x, Pending);
  }

  // `create_or_get_direct_thread` reads the friendship before it inserts. A
  // thread inserted later keeps the invariant exactly unless the two became
  // friends in between.
  lemma LateDirectInsert(s: Tables, user: Id, peer: Id, wereFriends: bool, id: Id, now: int)
    requires Consistent(s) && user != peer && !HasDirect(s, user, peer) && id !in s.usedIds
    ensures Consistent(DirectInserted(s, user, peer, wereFriends, id, now)) <==>
              wereFriends || !AreFriends(s, user, peer)
  {
    var r := DirectInserted(s, user, peer, wereFriends, id, now);
    assert r.threads[id].pair == SortPair(user, peer);
    SameFriends(s, r);
    InsertKeepsThreads(s, user, peer, wereFriends, id, now);
    InsertKeepsWriters(s, user, peer, wereFriends, id, now);
  }

  // It happens: the friendship is read before the request is made and accepted,
  // and the insert comes after. Two friends are left with a requested thread.
  lemma RequestedBetweenFriends(x: Id, y: Id, id: Id, now: int)
    requires x != y
    ensures var before := NoRows({x, y});
            var ops := [Request(x, y), AcceptRequest(x, y, now)];
            && !AreFriends(before, x, y) && AllowedRun(before, ops)
            && var s := Run(before, ops);
            && AreFriends(s, x, y) && !HasDirect(s, x, y) && id !in s.usedIds
            && var r := DirectInserted(s, x, y, AreFriends(before, x, y), id, now);
            && AreFriends(r, x, y) && id in r.threads && r.threads[id].pair == SortPair(x, y)
            && r.threads[id].status == Requested && !Consistent(r)
  {
    var before := NoRows({x, y});
    var ops := [Request(x, y), AcceptRequest(x, y, now)];
    var s1 := Next(before, ops[0]);
    NextKeepsConsistent(before, ops[0]);
    var s := Next(s1, ops[1]);
    NextKeepsConsistent(s1, ops[1]);
    assert ops[1..][0] == ops[1] && ops[1..][1..] == [];
    assert AllowedRun(s1, ops[1..]) && Run(s1, ops[1..]) == s;
    LateDirectInsert(s, x, y, false, id, now);
  }

  // ------------------------------------------------------------------ tables

  // The tables as the repositories update them, statement by statement.
  class SocialStore {
    const users: set<Id>
    var requests: map<Pair, RequestStatus>
    var friends: set<Pair>
    var threads: map<Id, Thread>
    var members: set<(Id, Id)>
    var messages: map<Id, ThreadMessage>
    ghost var usedIds: set<Id>
    ghost var cleared: set<(Id, Id)>

    ghost function View(): Tables
      reads this
    {
      Tables(users, requests, friends, threads, members, messages, usedIds, cleared)
    }

    ghost predicate Valid()
      reads this
    {
      Consistent(View())
    }

    constructor (users: set<Id>)
      ensures Valid() && View() == NoRows(users)
    {
      this.users := users;
      requests, friends, threads, members, messages, usedIds, cleared := map[], {}, map[], {}, map[], {}, {};
    }

    method CreateFriendRequest(from: Id, to: Id) returns (r: Result<(), SocialError>)
      requires Valid()
      modifies this
      ensures Valid() && (View(), r) == RequestCreated(old(View()), from, to)
      ensures var pair := if from < to then (from, to) else (to, from);
              r == if from == to then Err(SelfRequest)
                   else if pair in old(friends) then Err(AlreadyFriends)
                   else if (to, from) in old(requests) && old(requests)[(to, from)] == Pending then Err(IncomingPending)
                   else if from !in users || to !in users then Err(UserNotFound)
                   else if (from, to) in old(requests) && old(requests)[(from, to)] == Pending then Err(AlreadyPending)
                   else Ok(())
      ensures View() == if r.Ok? then old(View()).(requests := old(requests)[(from, to) := Pending]) else old(View())
    {
      NextKeepsConsistent(View(), Request(from, to));
      if from == to {
        return Err(SelfRequest);
      }
      if SortPair(from, to) in friends {
        return Err(AlreadyFriends);
      }
      if (to, from) in requests && requests[(to, from)] == Pending {
        return Err(IncomingPending);
      }
      if from !in users || to !in users {
        return Err(UserNotFound);
      }
      if (from, to) in requests && requests[(from, to)] == Pending {
        return Err(AlreadyPending);
      }
      requests := requests[(from, to) := Pending];
      return Ok(());
    }

    method AcceptFriendRequest(from: Id, to: Id, now: int) returns (r: Result<(), SocialError>)
      requires Valid()
      modifies this
      ensures Valid() && (View(), r) == RequestAccepted(old(View()), from, to, now)
    {
      ghost var before := View();
      if (from, to) !in requests {
        return Err(RequestNotFound);
      }
      var status := requests[(from, to)];
      if status == Rejected {
        return Err(RequestRejected);
      }
      if status == Pending {
        requests := requests[(from, to) := Accepted];
      }
      var pair := SortPair(from, to);
      friends := friends + {pair};
      threads := Activated(threads, pair, now);
      assert requests == before.requests[(from, to) := Accepted];
      NextKeepsConsistent(before, AcceptRequest(from, to, now));
      return Ok(());
    }

    method RejectFriendRequest(from: Id, to: Id) returns (r: Result<(), SocialError>)
      requires Valid()
      modifies this
      ensures Valid() && (View(), r) == RequestRejectedBy(old(View()), from, to)
      ensures r.Ok? <==> (from, to) in old(requests) && old(requests)[(from, to)] == Pending
      ensures View() == if r.Ok? then old(View()).(requests := old(requests)[(from, to) := Rejected]) else old(View())
    {
      NextKeepsConsistent(View(), RejectRequest(from, to));
      if (from, to) !in requests || requests[(from, to)] != Pending {
        return Err(RequestNotFound);
      }
      requests := requests[(from, to) := Rejected];
      return Ok(());
    }

    method CreateOrGetDirectThread(user: Id, peer: Id, id: Id, now: int) returns (r: Result<(Id, bool), SocialError>)
      requires Valid() && id !in usedIds
      modifies this
      ensures Valid() && (View(), r) == CreateOrGetDirect(old(View()), user, peer, id, now)
      ensures r.Ok? && r.value.1 && !AreFriends(old(View()), user, peer) ==>
                && r.value.0 in threads && threads[r.value.0].requestedBy == Some(user)
                && ResponseGuard(View(), r.value.0, peer, NotPending) == Ok(user)
                && ResponseGuard(View(), r.value.0, user, NotPending) == Err(RequesterCannotRespond)
    {
      ghost var before := View();
      if user == peer {
        return Err(SelfThread);
      }
      var pair := SortPair(user, peer);
      var areFriends := pair in friends;
      if t :| t in threads && threads[t].pair == pair {
        // The insert met the unique index; the membership insert repeats rows.
        FoundDirect(before, user, peer, t, id, now);
        members := members + {(t, pair.0), (t, pair.1)};
        assert members == before.members;
        return Ok((t, false));
      }
      if user !in users || peer !in users {
        return Err(UserNotFound);
      }
      var requestedBy := if areFriends then None else Some(user);
      var acceptedAt := if areFriends then Some(now) else None;
      threads := threads[id := Thread(pair, if areFriends then Active else Requested, requestedBy, acceptedAt)];
      members := members + {(id, pair.0), (id, pair.1)};
      usedIds := usedIds + {id};
      NewDirect(before, user, peer, id, now);
      if !areFriends {
        NewDirectIsCallersRequest(before, user, peer, id, now);
      }
      return Ok((id, true));
    }

    // The use case around it, in terms of the rows.
    method CreateDirectThread(user: Id, peer: Id, id: Id, now: int) returns (r: Result<(Id, bool), SocialError>)
      requires Valid() && id !in usedIds
      modifies this
      ensures Valid() && (r.Err? ==> View() == old(View()))
      ensures r == Err(SelfThread) <==> user == peer
      ensures r.Err? && user != peer ==> r == Err(UserNotFound) && !({user, peer} <= users)
      ensures r.Ok? ==>
                && r.value.0 in threads
                && threads[r.value.0].pair == (if user < peer then (user, peer) else (peer, user))
                && (r.value.1 <==> r.value.0 !in old(threads)) && (!r.value.1 ==> View() == old(View()))
      ensures r.Ok? && r.value.1 ==>
                var pair := if user < peer then (user, peer) else (peer, user);
                && r.value.0 == id && members == old(members) + {(id, user), (id, peer)}
                && threads == old(threads)[id := if pair in old(friends) then Thread(pair, Active, None, Some(now))
                                                 else Thread(pair, Requested, Some(user), None)]
                && requests == old(requests) && friends == old(friends) && messages == old(messages)
                && (pair !in old(friends) ==>
                      && ResponseGuard(View(), id, peer, NotPending) == Ok(user)
                      && ResponseGuard(View(), id, user, NotPending) == Err(RequesterCannotRespond)
                      && SendGuard(View(), user, id).Ok? && SendGuard(View(), peer, id) == Err(MustBeAccepted))
    {
      if user == peer {
        return Err(SelfThread);
      }
      ghost var before := View();
      r := CreateOrGetDirectThread(user, peer, id, now);
      OpenedMeans(before, user, peer, id, now);
    }

    // Lock the thread row for a member and find out who asked for it.
    method RequesterOf(t: Id, user: Id, otherwise: SocialError) returns (r: Result<Id, SocialError>)
      ensures r == ResponseGuard(View(), t, user, otherwise)
    {
      if t !in threads || (t, user) !in members {
        return Err(ThreadNotFound);
      }
      if threads[t].status != Requested {
        return Err(otherwise);
      }
      match threads[t].requestedBy
      case None => return Err(MissingRequester);
      case Some(requester) =>
        if requester == user {
          return Err(RequesterCannotRespond);
        }
        return Ok(requester);
    }

    method AcceptDirectThread(t: Id, user: Id, now: int) returns (r: Result<Id, SocialError>)
      requires Valid()
      modifies this
      ensures Valid() && (View(), r) == AcceptDirect(old(View()), t, user, now)
      ensures r.Err? ==> r.error != MissingRequester
      ensures r == if t !in old(threads) || (t, user) !in old(members) then Err(ThreadNotFound)
                   else if old(threads)[t].status == Active then Err(AlreadyActive)
                   else if old(threads)[t].requestedBy == Some(user) then Err(RequesterCannotRespond)
                   else Ok(old(threads)[t].requestedBy.value)
      ensures r.Err? ==> View() == old(View())
      ensures r.Ok? ==>
                && threads == old(threads)[t := old(threads)[t].(status := Active, acceptedAt := Some(now))]
                && requests == old(requests) && friends == old(friends)
                && members == old(members) && messages == old(messages)
    {
      NextKeepsConsistent(View(), AcceptThread(t, user, now));
      RespondersAreTheOtherSide(View(), t, user, AlreadyActive);
      r := RequesterOf(t, user, AlreadyActive);
      if r.Ok? {
        threads := threads[t := threads[t].(status := Active, acceptedAt := Some(now))];
      }
    }

    method RejectDirectThread(t: Id, user: Id) returns (r: Result<Id, SocialError>)
      requires Valid()
      modifies this
      ensures Valid() && (View(), r) == RejectDirect(old(View()), t, user)
      ensures r.Err? ==> r.error != MissingRequester
      ensures r == if t !in old(threads) || (t, user) !in old(members) then Err(ThreadNotFound)
                   else if old(threads)[t].status == Active then Err(NotPending)
                   else if old(threads)[t].requestedBy == Some(user) then Err(RequesterCannotRespond)
                   else Ok(old(threads)[t].requestedBy.value)
      ensures r.Err? ==> View() == old(View())
      ensures r.Ok? ==>
                && threads == old(threads) - {t} && requests == old(requests) && friends == old(friends)
                && (forall x, u :: (x, u) in members <==> (x, u) in old(members) && x != t)
                && (forall i :: i in messages <==> i in old(messages) && old(messages)[i].thread != t)
                && (forall i :: i in messages ==> messages[i] == old(messages)[i])
    {
      NextKeepsConsistent(View(), RejectThread(t, user));
      RespondersAreTheOtherSide(View(), t, user, NotPending);
      r := RequesterOf(t, user, NotPending);
      if r.Ok? {
        threads := threads - {t};
        members := MembersWithout(members, t);
        messages := MessagesWithout(messages, t);
      }
    }

    // The check and the insert with nothing in between.
    method CreateThreadMessage(id: Id, user: Id, t: Id) returns (r: Result<(), SocialError>)
      requires Valid() && id !in messages
      modifies this
      ensures Valid() && r == SendGuard(old(View()), user, t)
      ensures View() == if r.Err? then old(View()) else InsertMessage(CheckSend(old(View()), user, t).0, id, user, t).0
      ensures r == if t !in old(threads) || (t, user) !in old(members) then Err(ThreadNotFound)
                   else if old(threads)[t].status == Requested && old(threads)[t].requestedBy != Some(user)
                   then Err(MustBeAccepted) else Ok(())
      ensures messages == if r.Ok? then old(messages)[id := ThreadMessage(t, user)] else old(messages)
      ensures requests == old(requests) && friends == old(friends) && threads == old(threads) && members == old(members)
    {
      ghost var before := View();
      if t !in threads || (t, user) !in members {
        return Err(ThreadNotFound);
      }
      if threads[t].status == Requested && threads[t].requestedBy != Some(user) {
        return Err(MustBeAccepted);
      }
      cleared := cleared + {(user, t)};
      messages := messages[id := ThreadMessage(t, user)];
      SendKeepsConsistent(before, id, user, t);
      return Ok(());
    }
  }
}
