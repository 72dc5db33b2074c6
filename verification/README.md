# Chat backend: a verified model

A Dafny model of the parts of a Discord-like chat backend whose state has to
stay consistent over every run, with proofs that it does. `dafny verify
dfyconfig.toml` checks everything.

| file | what it models |
|---|---|
| `Base.dfy`, `Protocol.dfy` | identifiers, option and result types, the events pushed to clients |
| `Gateway.dfy` | the websocket hub of one instance: four maps that index each other, the connections of a user, presence |
| `Fanout.dfy` | several instances that publish, receive through Redis and drop their own echo |
| `DeliveryOrder.dfy` | in which order what is sent is read, and what is pushed lies in a queue |
| `AcceptFanout.dfy` | the one event that is published twice, and how often it arrives |
| `ClusterPresence.dfy` | what a presence notice of one instance says about all of them |
| `Messages.dfy` | keyset pagination over a table that changes between pages, and read markers in the same order |
| `Social.dfy` | friend requests, direct threads and the messages in them, three features about one pair of users |
| `Membership.dfy` | guilds and groups, and invites whose uses are capped under concurrent transactions |
| `Sessions.dfy` | chains of refresh tokens under concurrent rotation |
| `RateLimit.dfy` | the fixed-window counter over time |
| `Masks.dfy`, `Permissions.dfy` | permission masks joined over any number of roles and overrides |

## How it is built

Objects and tables that the code updates in place are classes with the same
fields; their methods are proved to end in the state that a function of the old
state describes, and in the state the contract spells out field by field. The
theorems are about those functions: one lemma says that a step keeps an
invariant, one that every run does, and the main results follow.
Where the code interleaves, the module has a transition system with the finer
steps (`Fanout.Next`, `Membership.Next`, `Sessions.Next`, `Social.Next`), in
which a step that would wait for a lock is not enabled.

What is assumed of the surroundings:

- UUIDs, tokens and their hashes are fresh. Connection and thread ids are never
  reused; the hub's index needs this, because it may keep ids of connections
  that are gone. A session hash that repeats is refused by the table.
- Redis passes a message to a session once for each subscription that matches
  its topic, in order, and not at all to an instance without a session. INCR is
  atomic, and so are INCR and the EXPIRE of the first hit together; either may
  fail.
- PostgreSQL makes statements atomic, holds row locks until a transaction ends,
  makes an insert wait for an uncommitted row with the same key, keeps UNIQUE
  and FOREIGN KEY constraints, and compares `(created_at, id)` as rows.
- Identifiers are natural numbers, compared as the database orders them; times
  are integers, and reals in the rate limiter.

## What was found

- Accepting a direct thread publishes the same event to the requester and then
  to the receiver, but a remote dispatch already reaches both. A connection of
  either user gets it once at the accepting instance and twice at any other
  (`AcceptFanout.AcceptedCopies`; a run: `AcceptFanout.DoubleDelivery`). Each of
  the two publish calls is still delivered at most once.
- A subscription for a connection that is gone, after `shutdown_all` for
  instance, leaves its id in the hub's index, and nothing else does
  (`Gateway.ApplyKeepsNoDangling`). `unregister` does not remove it; no
  broadcast reaches it (`Gateway.DanglingRemains`).
- Presence is decided by each hub alone. A notice reports a change of the user's
  presence in the whole cluster exactly when no other instance has a connection
  of the user, and only offline notices can be wrong
  (`ClusterPresence.NoticeInCluster`; a run in which a connected user is
  published as offline: `ClusterPresence.OfflineWhileConnected`).
- `create_friend_request` reads and writes outside a transaction. The late
  write is harmless exactly when the two reads would still pass
  (`Social.LateRequestWrite`). Two users who ask each other at the same time can
  both end up pending (`Social.CrossingRequests`).
- `create_or_get_direct_thread` reads the friendship before it inserts. The
  thread is pending between friends exactly when they became friends in between
  (`Social.LateDirectInsert`; a run: `Social.RequestedBetweenFriends`).
- `remove_member` deletes the member row and the role row in two statements
  outside a transaction, the second whatever the first one found. One call with
  joins in between leaves roles and members in agreement exactly if the user
  was a member when it was called or does not join meanwhile
  (`Membership.OneDeparture`). A user who is not a member yet, calls leave and
  joins between the statements ends up without the default role
  (`Membership.EarlyDepartureLosesRole`). For a member the role row left over
  prevents that (`Membership.LeftoverRoleKeepsOut`), unless two calls overlap,
  which is a further case (`Membership.SecondDepartureLosesRole`).
- A logout with a token that was rotated already leaves the login's live session
  alone (`Sessions.LogoutEndsChain`).
- The rate limiter is documented as a rolling window
  (backend/src/bootstrap/app_state.rs:243), but a window opens with the first
  call after the last one ended. It rolls exactly for limits up to one
  (`RateLimit.RollingUpToOne`); otherwise an interval as long as the window can
  see 2 * limit - 1 approvals, and no more (`RateLimit.BoundIsTight`,
  `RateLimit.WindowApprovals`). A used-up key recovers exactly if its first hit
  set the expiry (`RateLimit.RecoversIfExpirySet`, `RateLimit.StuckForGood`).
  Calls let through because Redis was not reached are not counted as approvals.

## Model

| member | source | states |
|---|---|---|
| `Gateway.DropFromScopes` | backend/src/interfaces/ws/gateway.rs:117-133 | the cleanup loops of unregister remove the connection from the entries of exactly the scopes it subscribed to, drop entries that become empty, and leave every other entry alone |
| `Gateway.IndexExtensional` | backend/src/interfaces/ws/gateway.rs:119-124 | an index that keeps no empty set is determined by which connection it lists under which key |
| `Gateway.ApplyKeepsCoherent` | backend/src/interfaces/ws/gateway.rs:77-325 | every hub call keeps the four maps inverse to each other for registered connections and keeps them free of empty sets |
| `Gateway.RunKeepsCoherent` | backend/src/interfaces/ws/gateway.rs:77-325 | every sequence of hub calls in any order, subscriptions after a shutdown included, keeps the hub coherent |
| `Gateway.ReachableHubsAreCoherent` | backend/src/interfaces/ws/gateway.rs:61-70 | every hub reachable from an empty one is coherent: each registered connection is in a subscriber set exactly when the scope is in its own set, and user_connections is exactly the inverse of connection-to-user |
| `Gateway.ApplySubscriber` | backend/src/interfaces/ws/gateway.rs:156-227 | exactly which pairs of a channel or thread and a connection id each call leaves in the index |
| `Gateway.ApplyKeepsNoDangling` | backend/src/interfaces/ws/gateway.rs:156-207 | a call makes the index name an id that is not registered exactly when it is a channel or thread subscription for such an id |
| `Gateway.RunNeverDangles` | backend/src/interfaces/ws/gateway.rs:77-325 | over every run the index names registered connections only, at every moment, exactly when no subscription of the run was for an unregistered id |
| `Gateway.DanglingRemains` | backend/src/interfaces/ws/gateway.rs:113-227 | an id left in the index is reached by no broadcast, never becomes registered again, and disappears exactly when its own scope is unsubscribed or everything is shut down |
| `Gateway.SubscribeAfterShutdownDangles` | backend/src/interfaces/ws/gateway.rs:156-207 | a channel or thread subscription that comes after shutdown_all leaves an id in the index; all audiences stay empty and unregister changes nothing |
| `Gateway.UnregisterIsExact` | backend/src/interfaces/ws/gateway.rs:113-149 | after unregister the connection occurs in none of the four maps, all other memberships are as before, and each audience loses just this connection |
| `Gateway.FirstConnectionMeaning` | backend/src/interfaces/ws/gateway.rs:96-100 | register answers first_connection exactly when the user had no connection before |
| `Gateway.BecameOfflineMeaning` | backend/src/interfaces/ws/gateway.rs:135-142 | unregister answers became_offline exactly when the user has no connection afterwards |
| `Gateway.NoticeIsTheChange` | backend/src/interfaces/ws/gateway.rs:96-142 | a call other than shutdown causes an online or offline notice for a user exactly when it changes whether that user is connected, and the notice names the new value |
| `Gateway.NoticesAlternate` | backend/src/interfaces/ws/gateway.rs:383-401 | over every run without a shutdown the notices of a user strictly alternate, starting with the opposite of the state before the run and ending with the state after it |
| `Gateway.AlternationBalance` | backend/src/interfaces/ws/gateway.rs:96-142 | in an alternating log the value it starts with leads by one exactly when the log has odd length |
| `Gateway.PresenceRefcount` | backend/src/interfaces/ws/gateway.rs:481-497 | from a disconnected start the online notices exceed the offline notices by one exactly while the user has a connection, and by nothing otherwise |
| `Gateway.QueueGrowsByWhatWasPushed` | backend/src/interfaces/ws/gateway.rs:245-339 | over every run a connection's queue keeps what it holds and grows at its end by the events of the calls whose audience held it, each once, in the order of the calls |
| `Gateway.GatewayHub.constructor` | backend/src/interfaces/ws/gateway.rs:61-70 | a new hub is empty and coherent |
| `Gateway.GatewayHub.Register` | backend/src/interfaces/ws/gateway.rs:77-107 | the whole new state, map by map: one connection with empty subscriptions and an empty queue, one pair more in the user index; first_connection exactly when the user had none |
| `Gateway.GatewayHub.Unregister` | backend/src/interfaces/ws/gateway.rs:113-149 | the whole new state, map by map, None exactly for an unknown id, which changes nothing; became_offline exactly when the user has no connection left |
| `Gateway.GatewayHub.SubscribeChannel` | backend/src/interfaces/ws/gateway.rs:156-168 | the connection's set changes only if it is registered, the index changes in any case; coherence is kept |
| `Gateway.GatewayHub.UnsubscribeChannel` | backend/src/interfaces/ws/gateway.rs:175-188 | removes the pair from both sides, and an emptied index entry with it |
| `Gateway.GatewayHub.SubscribeThread` | backend/src/interfaces/ws/gateway.rs:195-207 | the connection's thread set changes only if it is registered, the index changes in any case; coherence is kept |
| `Gateway.GatewayHub.UnsubscribeThread` | backend/src/interfaces/ws/gateway.rs:214-227 | removes the pair from the connection's threads and from the index, and an emptied index entry with it |
| `Gateway.GatewayHub.TouchHeartbeat` | backend/src/interfaces/ws/gateway.rs:233-238 | only the timestamp of a registered connection changes |
| `Gateway.GatewayHub.SendEach` | backend/src/interfaces/ws/gateway.rs:251-255 | the loop of a broadcast appends the event once at the end of the queue of each listed id that is still registered; every other queue stays |
| `Gateway.GatewayHub.BroadcastToChannel` | backend/src/interfaces/ws/gateway.rs:245-256 | the event is appended at the end of the queue of exactly the registered connections whose own state names the channel, although the code reads the index; every other queue stays |
| `Gateway.GatewayHub.BroadcastToThread` | backend/src/interfaces/ws/gateway.rs:263-274 | the event is appended at the end of the queue of exactly the registered connections whose own state names the thread; every other queue stays |
| `Gateway.GatewayHub.BroadcastToUser` | backend/src/interfaces/ws/gateway.rs:292-303 | the event is appended at the end of the queue of exactly the user's registered connections; every other queue stays |
| `Gateway.GatewayHub.BroadcastGlobal` | backend/src/interfaces/ws/gateway.rs:280-285 | the event is appended at the end of the queue of every registered connection; every other queue stays |
| `Gateway.GatewayHub.SendToConnection` | backend/src/interfaces/ws/gateway.rs:310-315 | the event is appended at the end of the connection's queue if it is registered; nothing else changes |
| `Gateway.GatewayHub.ShutdownAll` | backend/src/interfaces/ws/gateway.rs:318-325 | all four maps are emptied; queues already handed out remain with their sockets |
| `Fanout.TopicKinds` | backend/src/infrastructure/redis/service.rs:257-274 | each of the four subscriptions matches exactly the topics of one kind of scope, whatever the id prints as |
| `Fanout.EachTopicMatchesOnce` | backend/src/infrastructure/redis/service.rs:123-134 | a topic matches one of the four subscriptions of a session, and at most one of those established so far |
| `Fanout.DispatchReachesItsAudience` | backend/src/infrastructure/redis/service.rs:304-341 | dispatch of any event is one delivery to the union of its publish scopes: a connection in several of them still gets one copy |
| `Fanout.RoutesAlike` | backend/src/infrastructure/redis/service.rs:304-341 | for every event but ThreadAccepted a remote instance picks the connections a local broadcast to the publish scope would pick; for ThreadAccepted at least those |
| `Fanout.StepCopies` | backend/src/bootstrap/app_state.rs:148-216 | how many copies of a call each step of the cluster adds to a queue |
| `Fanout.StepDue` | backend/src/infrastructure/redis/service.rs:173-179 | how each step changes the dispatches of a call that an instance has still to make, its own echo not counting |
| `Fanout.NextKeepsInv` | backend/src/infrastructure/redis/service.rs:111-189 | every step keeps the cluster invariant: copies a queue has got from a call and copies still due to it are at most one together |
| `Fanout.RunKeepsInv` | backend/src/infrastructure/redis/service.rs:111-189 | every run of publishes, receptions, lost and renewed sessions and hub calls in any order keeps the cluster invariant |
| `Fanout.FanoutAtMostOnce` | backend/src/infrastructure/redis/service.rs:57-109 | over every run of any number of instances one publish call puts at most one copy of its event into any connection's queue |
| `Fanout.SteadyRun` | backend/src/infrastructure/redis/service.rs:136-187 | while a connection stays in the audience and its instance keeps its session, a copy that is due stays due or has arrived |
| `Fanout.SteadyRunDeliversOnce` | backend/src/infrastructure/redis/service.rs:136-187 | in such a run, once the publish is sent and the inbox read, the connection has exactly one copy |
| `Fanout.PublishCovers` | backend/src/bootstrap/app_state.rs:148-216 | a publish gives its local recipients their copy at once and makes one due at every other instance |
| `Fanout.OwnCopiesAreFinal` | backend/src/infrastructure/redis/service.rs:173-177 | over every run, what a queue at the publishing instance has got of a call is all it ever gets |
| `Fanout.FanoutExactlyOnce` | backend/src/bootstrap/app_state.rs:148-216 | a publish reaches each connection in its scope exactly once: at the publishing instance from that moment on over every run, at any other instance once what was sent has been read, if the connection stays in the audience and the session lasts |
| `Fanout.OnlyTheAudience` | backend/src/infrastructure/redis/service.rs:304-341 | a step that adds a copy of a call adds it only for a connection in the call's scope or its dispatch audience |
| `Fanout.NeverMeantGetsNothing` | backend/src/infrastructure/redis/service.rs:304-341 | over every run, a connection that is at no step in the call's scope or its dispatch audience has no copy of it in the end |
| `Fanout.OwnCallsAreFinal` | backend/src/infrastructure/redis/service.rs:173-177 | after a publish no step adds a copy of it at the publishing instance: the echo is dropped |
| `Fanout.LocalPublishCopies` | backend/src/bootstrap/app_state.rs:190-203 | a local broadcast adds one copy of its own call to its recipients and changes the copies of no other call |
| `Fanout.RedisPublisher.PublishEnvelope` | backend/src/infrastructure/redis/service.rs:227-252 | an envelope with the instance's own id and the event goes out if Redis can be reached |
| `Fanout.Instance.PublishEvent` | backend/src/bootstrap/app_state.rs:148-216 | the event is appended to the queues of the local recipients in any case, the envelope follows if Redis can be reached |
| `Fanout.Instance.DispatchEvent` | backend/src/infrastructure/redis/service.rs:304-341 | the hub ends in the state the dispatch of the event describes |
| `Fanout.Instance.DispatchToBoth` | backend/src/infrastructure/redis/service.rs:325-335 | the event goes to the connections of two users, once if they are one |
| `Fanout.Instance.HandleEnvelope` | backend/src/infrastructure/redis/service.rs:154-179 | an envelope of the instance itself changes nothing; any other, also one without an origin, is appended once to the queue of each connection in the audience of its event |
| `DeliveryOrder.InboxIsFifo` | backend/src/infrastructure/redis/service.rs:136-187 | over every run throughout which an instance listens, it reads what is sent to it in the order it was sent and loses nothing |
| `DeliveryOrder.QueueGrowsInOrder` | backend/src/infrastructure/redis/service.rs:173-179 | over every run of the cluster a connection's queue keeps what it holds and grows at its end by what local broadcasts, dispatched envelopes and direct sends push to it, in their order |
| `AcceptFanout.RunKeepsUser` | backend/src/interfaces/ws/gateway.rs:77-149 | over every run a connection id belongs to one user for as long as it is registered |
| `AcceptFanout.AcceptedArrivesOnceLocally` | backend/src/interfaces/http/handlers/conversation.rs:123-134 | the handler publishes ThreadAccepted to the requester, waits until that publish has ended, then publishes it to the receiver; at the accepting instance a connection of either user that is registered at both has one copy of it ever after |
| `AcceptFanout.AcceptedArrivesTwiceRemotely` | backend/src/interfaces/http/handlers/conversation.rs:123-134 | with anything happening before, between and after the two publishes, a connection of either user at another instance that keeps its session gets both copies |
| `AcceptFanout.AcceptedCopies` | backend/src/interfaces/http/handlers/conversation.rs:123-134 | the number of copies such a connection gets is one at the accepting instance and two at any other |
| `AcceptFanout.AcceptFromRest` | backend/src/interfaces/http/handlers/conversation.rs:123-134 | from every cluster in which another listening instance has an empty inbox and a connection of either user, the handler alone leads to two copies |
| `AcceptFanout.DoubleDelivery` | backend/src/interfaces/http/handlers/conversation.rs:123-134 | a run from two fresh instances that ends with two copies in one queue |
| `ClusterPresence.NoticeInCluster` | backend/src/interfaces/ws/gateway.rs:383-401 | an online or offline notice of one hub reports a change of the user's presence in the whole cluster exactly when no other instance has a connection of the user |
| `ClusterPresence.OfflineInCluster` | backend/src/interfaces/ws/gateway.rs:481-497 | an offline notice agrees with the whole cluster exactly when no other instance has a connection of the user |
| `ClusterPresence.OfflineWhileConnected` | backend/src/interfaces/ws/gateway.rs:481-497 | a run after which a user is published as offline while connected at another instance |
| `Messages.DescendingSorts` | backend/src/infrastructure/db/repositories/message_repository.rs:62-66 | the listing order is strict and holds each key once |
| `Messages.DescendsUnique` | backend/src/infrastructure/db/repositories/message_repository.rs:62-66 | a descending listing is determined by the set of its keys |
| `Messages.PageIsTop` | backend/src/application/use_cases/message.rs:100-116 | a page is the greatest visible keys in order; its cursor is its last key, present exactly when something visible lies below it |
| `Messages.ChangesEvolve` | backend/src/infrastructure/db/repositories/message_repository.rs:112-152 | edits, soft deletes and new messages never move a row to another key or scope and never bring one back |
| `Messages.FirstPage` | backend/src/infrastructure/db/repositories/message_repository.rs:186-213 | a cursor stays valid whatever happens between pages, also when its own row is soft-deleted |
| `Messages.WalkDescends` | backend/src/infrastructure/db/repositories/message_repository.rs:48-93 | under arbitrary changes between pages and any limits, the joined pages descend strictly |
| `Messages.WalkMissesNothing` | backend/src/application/use_cases/message.rs:100-121 | when the walk has ended, every message live at every page read is in some page |
| `Messages.WalkInventsNothing` | backend/src/infrastructure/db/repositories/message_repository.rs:60-80 | a listed message was live in the scope when some page was read |
| `Messages.WalkExactlyOnce` | backend/src/application/use_cases/message.rs:100-121 | a message live throughout a finished walk appears exactly once in the joined pages, and whatever appears was live at some page read |
| `Messages.DeleteDeletes` | backend/src/infrastructure/db/repositories/message_repository.rs:136-152 | a soft delete of a row that is there leaves it deleted, whatever changes came before and follow |
| `Messages.DeletedBeforePageIsGone` | backend/src/infrastructure/db/repositories/message_repository.rs:60-90 | a message soft-deleted before a page is read is in no page of the walk from there on, whatever changes follow |
| `Messages.RestOfListing` | backend/src/infrastructure/db/repositories/message_repository.rs:60-80 | below the n-th key of a listing lies the rest of the listing |
| `Messages.PagesNeededIsCeiling` | backend/src/application/use_cases/conversation.rs:379-400 | the number of pages is max(1, ceil(live / limit)) |
| `Messages.StaticPage` | backend/src/application/use_cases/conversation.rs:379-400 | a page of an unchanged scope is a prefix of the listing, and its cursor names the rest |
| `Messages.StaticPaging` | backend/src/application/use_cases/conversation.rs:379-400 | on an unchanged scope following cursors ends after max(1, ceil(live / limit)) pages, whose concatenation is the whole descending listing |
| `Messages.UnreadAgreesWithListing` | backend/src/infrastructure/db/repositories/guild_channel_repository.rs:259-278 | a scope is unread exactly when the first message of an unanchored page has a greater key than the marker, or exists at all when there is no marker |
| `Messages.FirstIsGreatest` | backend/src/infrastructure/db/repositories/message_repository.rs:215-233 | the listing starts with the greatest live message, if there is one |
| `Messages.MarkingNewestClears` | backend/src/infrastructure/db/repositories/message_repository.rs:215-256 | marking without an id succeeds exactly when a live message exists, and leaves nothing unread |
| `Messages.StaysReadUntilNewer` | backend/src/infrastructure/db/repositories/conversation_repository.rs:148-173 | a scope that was read stays read under edits and deletes, the marker's own message included, until a message with a greater key arrives, and then it does not |
| `Messages.LateMarkerClears` | backend/src/infrastructure/db/repositories/message_repository.rs:154-183 | resolving and storing a marker are two statements: the scope is unread after the second exactly when a live message with a greater key was created in between |
| `Messages.TruncatedIsFirstPage` | backend/src/application/use_cases/conversation.rs:385-395 | truncating limit + 1 fetched rows gives the page and the cursor |
| `Messages.FirstAreNewest` | backend/src/infrastructure/db/repositories/message_repository.rs:60-90 | the first n of the listing are the n newest rows of the scope that are not deleted and older than the cursor, as the table holds them, newest first |
| `Messages.MoreThanFirst` | backend/src/application/use_cases/message.rs:105-112 | some such row is not among the first n exactly when there are more than n |
| `Messages.PageIsNewest` | backend/src/application/use_cases/message.rs:100-121 | the rows of a page are the newest of the scope below the cursor; its next cursor names the last of them and is there exactly when some eligible row is not on the page |
| `Messages.NewestIsMarked` | backend/src/infrastructure/db/repositories/message_repository.rs:215-233 | without an id the newest row of the scope that is not deleted is marked, and the request fails exactly when there is none |
| `Messages.UnreadMeans` | backend/src/infrastructure/db/repositories/guild_channel_repository.rs:259-278 | a scope is unread exactly when some row of it that is not deleted is newer than the marker's row, or is there at all when that row is missing |
| `Messages.MessageStore.CreateMessage` | backend/src/infrastructure/db/repositories/message_repository.rs:26-46 | the new row is added as given, not edited and not deleted; nothing else changes |
| `Messages.MessageStore.UpdateMessageContent` | backend/src/infrastructure/db/repositories/message_repository.rs:112-134 | content and edit time of a row not deleted are set, nothing else changes; None and no change otherwise |
| `Messages.MessageStore.SoftDeleteMessage` | backend/src/infrastructure/db/repositories/message_repository.rs:136-152 | the deletion time of a row not yet deleted is set, after which it is live in no scope; None and no change otherwise |
| `Messages.MessageStore.FetchRows` | backend/src/infrastructure/db/repositories/conversation_repository.rs:690-735 | the n newest rows of the scope that are not deleted and older than the cursor's, newest first; an unknown cursor is an error |
| `Messages.MessageStore.ListPage` | backend/src/application/use_cases/message.rs:102-121 | fetching one row more than the page, truncating and taking the last id gives the page and its cursor |
| `Messages.MessageStore.ListMessages` | backend/src/application/use_cases/message.rs:100-121 | at most the requested, default or maximal number of the newest rows of the scope below the cursor, a cursor exactly when some are left, and the errors for a bad limit or cursor |
| `Messages.MessageStore.MarkRead` | backend/src/infrastructure/db/repositories/message_repository.rs:154-183 | marks the named message if it is a live one of the scope, without a name the newest such; after the latter nothing is unread |
| `Messages.MessageStore.Unread` | backend/src/infrastructure/db/repositories/conversation_repository.rs:148-173 | a scope is unread to a user exactly when a row of it that is not deleted is newer than the row of the user's marker, or is there at all when the user has no marker or its row is gone |
| `Social.NextKeepsFriends` | backend/src/infrastructure/db/repositories/friendship_repository.rs:25-199 | every step keeps friends, requests and their statuses in agreement |
| `Social.NextKeepsThreads` | backend/src/infrastructure/db/repositories/conversation_repository.rs:48-132 | every step keeps one thread for a pair, with the pair as its members, active exactly from its acceptance on |
| `Social.NextKeepsWriters` | backend/src/application/use_cases/conversation.rs:347-365 | every step keeps requested threads free of messages, and of cleared senders, other than the requester |
| `Social.NextKeepsConsistent` | backend/src/infrastructure/db/repositories/friendship_repository.rs:25-199 | every step keeps the joint invariant of requests, friends, threads, members and messages |
| `Social.RunKeepsConsistent` | backend/src/infrastructure/db/repositories/friendship_repository.rs:25-199 | every run of these steps in any order keeps the joint invariant |
| `Social.FriendshipAndThreadsAgree` | backend/src/infrastructure/db/repositories/friendship_repository.rs:96-179 | after any run two users are friends exactly when a request between them is accepted, no two requests cross, friends have none open and their thread is active |
| `Social.DirectThreadLifecycle` | backend/src/infrastructure/db/repositories/conversation_repository.rs:48-132 | after any run a pair has at most one thread, its members are the pair, it is active exactly when accepted_at is set, and no response can meet the missing-requester error |
| `Social.NoRows` | backend/src/infrastructure/db/repositories/friendship_repository.rs:25-40 | users without requests, threads or messages satisfy the joint invariant |
| `Social.PendingThreadAuthorship` | backend/src/application/use_cases/conversation.rs:347-365 | with check and insert as separate steps, every message of a pending thread is its requester's |
| `Social.OpenerOwnsRequest` | backend/src/application/use_cases/conversation.rs:347-365 | over every run, while a thread is pending, every message in it is by the user whose call created it, who may write and not respond, while the peer may respond and not write |
| `Social.ActiveIsForever` | backend/src/infrastructure/db/repositories/conversation_repository.rs:316-384 | an active thread is never deleted, reassigned or made pending again |
| `Social.RejectedIsForever` | backend/src/infrastructure/db/repositories/conversation_repository.rs:379-384 | a rejected thread never returns, nor does a message of it |
| `Social.LateInsert` | backend/src/infrastructure/db/repositories/conversation_repository.rs:668-688 | the insert of a message checked any number of steps before fails and changes nothing if its thread was rejected meanwhile, and adds the message if the thread was active |
| `Social.OpenIsIdempotent` | backend/src/infrastructure/db/repositories/conversation_repository.rs:96-131 | a second creation from either side finds the same thread and changes nothing |
| `Social.RespondersAreTheOtherSide` | backend/src/infrastructure/db/repositories/conversation_repository.rs:311-330 | a response is accepted exactly from the participant who did not make the request |
| `Social.NewDirectIsCallersRequest` | backend/src/infrastructure/db/repositories/conversation_repository.rs:70-103 | a new thread between users who are not friends is the caller's request: the peer may respond, the caller may write |
| `Social.OpenedMeans` | backend/src/infrastructure/db/repositories/conversation_repository.rs:48-132 | the rows after opening a direct thread: one new row of the sorted pair, active for friends and otherwise requested by the caller, and its two members; or the pair's thread and no change |
| `Social.AcceptedMeans` | backend/src/infrastructure/db/repositories/friendship_repository.rs:96-179 | the rows after accepting a friend request: the request accepted, the pair among the friends, its pending thread active and every other thread as it was |
| `Social.LateRequestWrite` | backend/src/infrastructure/db/repositories/friendship_repository.rs:25-94 | create_friend_request is no transaction: its write, made in a later state than its reads, keeps the invariant exactly when the guard would still pass there |
| `Social.CrossingRequests` | backend/src/infrastructure/db/repositories/friendship_repository.rs:25-94 | two users asking each other at once can leave two crossing pending requests |
| `Social.LateDirectInsert` | backend/src/infrastructure/db/repositories/conversation_repository.rs:54-103 | the insert of a thread, made later than the read of the friendship, keeps the invariant exactly unless the two became friends in between |
| `Social.RequestedBetweenFriends` | backend/src/infrastructure/db/repositories/conversation_repository.rs:54-103 | a run in which the friendship is read as absent, the request is then made and accepted, and the late insert leaves a pending thread between friends |
| `Social.SocialStore.CreateFriendRequest` | backend/src/application/use_cases/friendship.rs:40-53 | the state and the error of every case, the self-request guard first |
| `Social.SocialStore.AcceptFriendRequest` | backend/src/infrastructure/db/repositories/friendship_repository.rs:96-179 | accepting makes the two friends and opens their pending thread, keeping an acceptance time it already has; unknown and rejected requests are errors |
| `Social.SocialStore.RejectFriendRequest` | backend/src/infrastructure/db/repositories/friendship_repository.rs:181-199 | a pending request becomes rejected; any other is an error and nothing changes |
| `Social.SocialStore.CreateOrGetDirectThread` | backend/src/infrastructure/db/repositories/conversation_repository.rs:48-132 | creates the pair's thread, active for friends and otherwise the caller's request, or answers with the one it has |
| `Social.SocialStore.CreateDirectThread` | backend/src/application/use_cases/conversation.rs:120-134 | the new rows and the error of every case; between users who are not friends the caller is recorded as requester, the peer may respond and the caller may write |
| `Social.SocialStore.AcceptDirectThread` | backend/src/infrastructure/db/repositories/conversation_repository.rs:305-351 | a pending thread becomes active, with its acceptance time, for the participant who did not request it; every error with its condition, and never the missing requester |
| `Social.SocialStore.RejectDirectThread` | backend/src/infrastructure/db/repositories/conversation_repository.rs:353-393 | a pending thread is gone with its members and messages, for the participant who did not request it; every error with its condition |
| `Social.SocialStore.RequesterOf` | backend/src/infrastructure/db/repositories/conversation_repository.rs:1025-1057 | what a response needs: membership, pending status and a requester other than the caller |
| `Social.SocialStore.CreateThreadMessage` | backend/src/application/use_cases/conversation.rs:343-366 | the check and the insert with nothing in between |
| `Membership.MoveKeeps` | backend/src/infrastructure/db/repositories/conversation_repository.rs:832-914 | reading, checking, inserting, counting and aborting change no committed row and keep locks and uncommitted rows exclusive |
| `Membership.CommitKeeps` | backend/src/infrastructure/db/repositories/conversation_repository.rs:868-904 | a commit adds one member and one use, and its own check still holds because it held the row since |
| `Membership.CreateSpaceKeeps` | backend/src/infrastructure/db/repositories/guild_channel_repository.rs:41-75 | creating a guild or a group with its first members keeps the invariant |
| `Membership.AddDirectlyKeeps` | backend/src/infrastructure/db/repositories/guild_channel_repository.rs:132-161 | adding a member directly keeps the invariant, counts included |
| `Membership.LeaveKeeps` | backend/src/application/use_cases/guild_channel.rs:104-117 | leaving keeps the invariant; an owner cannot leave |
| `Membership.NextKeepsInv` | backend/src/infrastructure/db/repositories/guild_channel_repository.rs:369-487 | every step of every transaction keeps rows, locks, uncommitted rows, use counts and sizes in agreement |
| `Membership.RunKeepsInv` | backend/src/infrastructure/db/repositories/guild_channel_repository.rs:369-487 | every interleaving of such steps keeps them in agreement |
| `Membership.InviteCapHolds` | backend/src/infrastructure/db/repositories/conversation_repository.rs:861-897 | after any interleaving the use count of an invite is the number of members it let in and never exceeds max_uses |
| `Membership.JoinsWereAdmitted` | backend/src/infrastructure/db/repositories/guild_channel_repository.rs:400-446 | everyone an invite let in was admitted when it was not revoked, not expired, and the members it had let in before were fewer than max_uses |
| `Membership.RevokedAdmitsNobody` | backend/src/infrastructure/db/repositories/conversation_repository.rs:865-867 | over every run, an invite that is revoked lets nobody in any more |
| `Membership.EndFreesInvite` | backend/src/infrastructure/db/repositories/conversation_repository.rs:832-914 | a join that commits or aborts frees its invite for the next and leaves the others as they are; one that aborts leaves no trace |
| `Membership.SumUsedIsSumJoins` | backend/src/infrastructure/db/repositories/conversation_repository.rs:886-897 | the use counts of several invites together are the joins made through them |
| `Membership.JoinedIsSumJoins` | backend/src/infrastructure/db/repositories/conversation_repository.rs:886-897 | the joins into a space are the joins through its own invites |
| `Membership.MembershipIsConserved` | backend/src/infrastructure/db/repositories/guild_channel_repository.rs:41-189 | members = 1 + initial others + direct joins + uses of the space's invites - departures; the owner is a member; in a guild members are exactly the holders of the default role |
| `Membership.JoinNowIsARun` | backend/src/infrastructure/db/repositories/guild_channel_repository.rs:369-487 | a join with nothing in between is a run of the transaction's own steps |
| `Membership.JoinOutcomes` | backend/src/infrastructure/db/repositories/guild_channel_repository.rs:400-487 | a join admits exactly whoever is not a member, by an invite neither revoked nor expired nor used up, the last use included; each error and each answer has its own condition, and only an admission changes anything: one member, one use, in a guild one role |
| `Membership.CheckPasses` | backend/src/infrastructure/db/repositories/conversation_repository.rs:861-879 | among other transactions too, the check of a join passes exactly for a row that admits one more, unless a guild knows the user as a member, and otherwise ends the transaction |
| `Membership.LateRoleDelete` | backend/src/infrastructure/db/repositories/guild_channel_repository.rs:174-186 | the second statement of remove_member, run in a state whose other roles agree with the members, makes all agree exactly if the user is not a member in that state |
| `Membership.LeftoverRoleKeepsOut` | backend/src/infrastructure/db/repositories/guild_channel_repository.rs:163-189 | between the two statements of a call that found a member, the role row left over makes every admission of the user fail |
| `Membership.AttemptsAgree` | backend/src/infrastructure/db/repositories/guild_channel_repository.rs:132-161 | any admissions keep roles and members in agreement and let a user of the guild in exactly when the user is among them |
| `Membership.OneDeparture` | backend/src/infrastructure/db/repositories/guild_channel_repository.rs:163-189 | one call of remove_member, with any admissions between its statements, leaves roles and members in agreement exactly if the user was a member when it was called or is not among the admissions |
| `Membership.EarlyDepartureLosesRole` | backend/src/infrastructure/db/repositories/guild_channel_repository.rs:163-189 | a user who calls leave before being a member and joins between its statements ends up a member without the default role |
| `Membership.SecondDepartureLosesRole` | backend/src/infrastructure/db/repositories/guild_channel_repository.rs:163-189 | also a member loses the role for good: with two departures at once and a new admission between their last statements |
| `Membership.NormalizeMemberIds` | backend/src/application/use_cases/conversation.rs:516-536 | the initial members without the owner, each once, and an error beyond thirty |
| `Membership.MembershipStore.CreateGuild` | backend/src/infrastructure/db/repositories/guild_channel_repository.rs:41-75 | a guild with its owner as the only member, holding the default role; an error and no change for an unknown owner |
| `Membership.MembershipStore.CreateGroup` | backend/src/application/use_cases/conversation.rs:199-210 | a group of the owner and the normalised ids; an error, without a change, exactly beyond thirty of them or if one does not exist |
| `Membership.MembershipStore.InsertGroup` | backend/src/infrastructure/db/repositories/conversation_repository.rs:395-448 | the group, the owner's row and the others' rows; an error and no change exactly if one of the users does not exist |
| `Membership.MembershipStore.AddMember` | backend/src/infrastructure/db/repositories/conversation_repository.rs:540-577 | one member row, and in a guild its default role; unknown spaces, members already there and unknown users are errors that change nothing |
| `Membership.MembershipStore.CreateInvite` | backend/src/application/use_cases/conversation.rs:275-309 | a fresh invite with no uses, by a member of a guild or the owner of a group; the other callers and a cap below one are errors and change nothing |
| `Membership.MembershipStore.RemoveMember` | backend/src/application/use_cases/conversation.rs:255-269 | one member row and its role removed; owners and strangers are errors |
| `Membership.MembershipStore.JoinViaInvite` | backend/src/infrastructure/db/repositories/conversation_repository.rs:832-914 | admits exactly whoever JoinOutcomes says, if the user exists; one member, one use and in a guild one role more, and no change otherwise |
| `Sessions.NextKeepsInv` | backend/src/infrastructure/db/repositories/auth_repository.rs:87-140 | every login, refresh, abort and logout keeps chains traced to one login, one user's, and revoked up to their last session |
| `Sessions.FinishKeeps` | backend/src/infrastructure/db/repositories/auth_repository.rs:107-123 | committing a rotation keeps every chain traced, one user's and revoked up to its last session, and the other open rotations exclusive |
| `Sessions.LiveIsLast` | backend/src/infrastructure/db/repositories/auth_repository.rs:142-162 | a session not revoked is the last of its chain |
| `Sessions.RunKeepsInv` | backend/src/infrastructure/db/repositories/auth_repository.rs:87-140 | every interleaving of logins, refreshes, aborts and logouts keeps the chains that way |
| `Sessions.SuccessHandsOver` | backend/src/application/use_cases/auth.rs:97-123 | a refresh that succeeds after any run was given a token neither revoked nor expired when it began, and its user gets a live session that is now the last of the same chain |
| `Sessions.LoginStartsChain` | backend/src/application/use_cases/auth.rs:73-94 | a login with a fresh hash starts a chain of its own, with a session of the user who logged in, usable exactly until it expires; all other sessions stay |
| `Sessions.LiveTokenRefreshes` | backend/src/application/use_cases/auth.rs:97-123 | given a live token under no rotation and a fresh hash, a refresh succeeds: the token is spent and a session of the same user is live in its place |
| `Sessions.FailedRefreshIsVoid` | backend/src/infrastructure/db/repositories/auth_repository.rs:107-123 | a refresh that aborts or meets an existing hash leaves everything as it was |
| `Sessions.ChainsOfOneLogin` | backend/src/application/use_cases/auth.rs:73-136 | after any interleaving the sessions of one login are one user's, each hash in one chain only, and all but the last revoked |
| `Sessions.SpentNeverSucceeds` | backend/src/infrastructure/db/repositories/auth_repository.rs:142-162 | a rotated or logged-out token never succeeds again |
| `Sessions.RefreshSucceedsAtMostOnce` | backend/src/application/use_cases/auth.rs:97-123 | however many refreshes of one token overlap, at most one succeeds |
| `Sessions.SpentChainIsFinal` | backend/src/infrastructure/db/repositories/auth_repository.rs:107-162 | over every run, a chain whose sessions are all spent is never extended: its login never has a live session again |
| `Sessions.LogoutEndsChain` | backend/src/infrastructure/db/repositories/auth_repository.rs:125-139 | a logout ends the chain of its token exactly if the token is the last of the chain or the chain was over already |
| `Sessions.SessionStore.CreateSession` | backend/src/infrastructure/db/repositories/auth_repository.rs:87-105 | a live session of the user under the hash, or the error of a hash that exists and no change |
| `Sessions.SessionStore.RotateRefreshSession` | backend/src/infrastructure/db/repositories/auth_repository.rs:107-123 | succeeds exactly for a live token and an unused new hash, returns the session's user, and leaves the state of its two statements; otherwise nothing changes |
| `Sessions.SessionStore.RevokeByRefreshHash` | backend/src/infrastructure/db/repositories/auth_repository.rs:125-139 | afterwards the token, if it exists, is spent; nothing else changes |
| `RateLimit.ApprovalsBounded` | backend/src/infrastructure/redis/service.rs:279-301 | from any counter state the approvals still to come in an interval are bounded by what its windows can hold |
| `RateLimit.WindowApprovals` | backend/src/infrastructure/redis/service.rs:279-301 | over every timed call sequence, whatever fails, a half-open interval of the window's length holds at most 2 * limit - 1 approvals |
| `RateLimit.BoundIsTight` | backend/src/infrastructure/redis/service.rs:279-301 | that bound is reached for every limit of at least one and every positive window |
| `RateLimit.BurstApproved` | backend/src/infrastructure/redis/service.rs:287-300 | calls that a window has room for are all approved |
| `RateLimit.LifetimeApprovals` | backend/src/infrastructure/redis/service.rs:287-300 | a counter that stands at n lets at most max(0, limit - n) more calls through during its life |
| `RateLimit.StuckWithoutExpiry` | backend/src/infrastructure/redis/service.rs:292-297 | if setting the expiry fails, the key sees at most limit approvals over all later time |
| `RateLimit.RollingUpToOne` | backend/src/bootstrap/app_state.rs:238-244 | every interval of the window's length sees at most limit approvals, over all call sequences, exactly for limits up to one |
| `RateLimit.LivingCounter` | backend/src/infrastructure/redis/service.rs:287-298 | a counter that lives counts every hit and keeps the expiry it has |
| `RateLimit.RecoversIfExpirySet` | backend/src/infrastructure/redis/service.rs:292-300 | a key used up in a window approves a call made at or after the window's end exactly if the call that opened the window set the expiry |
| `RateLimit.StuckForGood` | backend/src/infrastructure/redis/service.rs:292-300 | if it did not, a call at any later time is approved exactly if fewer than limit hits came before it |
| `RateLimit.OutagesPass` | backend/src/infrastructure/redis/service.rs:279-301 | every call during an outage is let through and leaves the counter alone; any other is approved exactly if the count it makes is within the limit |
| `RateLimit.LetThroughIsApprovedOrOutage` | backend/src/bootstrap/app_state.rs:244-263 | what gets through is what is approved and every call of an outage |
| `RateLimit.WindowLetsThrough` | backend/src/bootstrap/app_state.rs:244-263 | an interval of the window's length lets through at most 2 * limit - 1 calls more than there were during outages |
| `RateLimit.RateLimiter.Allow` | backend/src/bootstrap/app_state.rs:244-263 | the caller is let through unless the count exceeds the limit; an unreachable Redis and a failed increment let it through; other keys are untouched |
| `Masks.HasIsConjunction` | backend/src/domain/permission/mod.rs:17-19 | has is the conjunction over the required bits |
| `Masks.SameBits` | backend/src/domain/permission/mod.rs:10-19 | two masks with the same bits are equal |
| `Masks.AtIsBitwise` | backend/src/infrastructure/db/repositories/guild_channel_repository.rs:597-598 | reading one bit follows or and and-not bit by bit |
| `Permissions.BitOrBit` | backend/src/infrastructure/db/repositories/guild_channel_repository.rs:517-530 | a bit is in the aggregate exactly when some row has it |
| `Permissions.ColumnBit` | backend/src/infrastructure/db/repositories/guild_channel_repository.rs:532-566 | in whatever order a query meets its rows, a bit of the aggregate is set exactly when some row has it |
| `Permissions.CellsAreRows` | backend/src/infrastructure/db/repositories/guild_channel_repository.rs:516-566 | the three role queries see exactly the rows of the roles the user holds: their permissions, and the denials and allowances of the channel's overrides for them |
| `Permissions.ResolutionFollowsRule` | backend/src/infrastructure/db/repositories/guild_channel_repository.rs:516-600 | a bit is granted exactly when the row of the member override allows it, or does not deny it and the row of a role override allows it or the row of a role grants it that no role override denies |
| `Permissions.ResolutionIgnoresOrder` | backend/src/infrastructure/db/repositories/guild_channel_repository.rs:516-600 | the result does not depend on row order |
| `Permissions.AuthorizationMeaning` | backend/src/application/use_cases/message.rs:72-80 | a requirement of several permissions is met exactly by a guild member to whom the rule grants each of them |

## Left out

- HTTP and websocket handlers, payload encoding, metrics, tracing and configuration: plumbing around the modelled calls; only the scope each handler publishes to is kept.
- Sockets: `queues` is what the hub has pushed to a connection's channel. A closed receiver, which discards the event, is not modelled, nor is reading from the queue.
- The listener's reconnect loop and its backoff: a lost session is the step `Disconnect`, a renewed one the steps `Subscribe`; undecodable payloads are skipped and leave no trace.
- Order between events of different publish calls before they reach Redis, presence included: publishing happens after the hub lock is released. What is sent in an order is read in it.
- The presence keys kept in Redis with a lifetime.
- Password hashing, token signing, hash functions: identifiers stand for their results.
- Validators of names, message contents, emails and passwords, and the clamp on an invite's lifetime.
- Author and membership checks before an edit, delete or listing, and reads that only join names to rows.
- The order in which the initial member ids are returned: `NormalizeMemberIds` yields a set.
- The lock that joining also takes on the guild or thread row: only the invite's row lock is used, so the results do not depend on it.
- Removal of users, guilds, channels and groups with their cascades: no code path of the repositories deletes them. Rejecting a direct thread does cascade and is modelled.
- Revoking an invite: the server reads `revoked_at` but no statement of it sets the column; the step `RevokeInvite` stands for a change made by hand.
- Unknown user ids in the transition system of memberships: such an insert fails and its transaction aborts, which the methods of `MembershipStore` say.
- Whether a read marker only moves forward: it does not have to, a request may name an older message.
- Membership.MembershipStore.RemoveMember: removes the member row and the role row in one step, as does the step `Leave`; the code deletes them in two statements outside a transaction. `OneDeparture`, `EarlyDepartureLosesRole` and `SecondDepartureLosesRole` say what that changes.
- Membership.MembershipStore.JoinViaInvite: the transaction with nothing in between. Interleaving is the business of the transition system, whose steps it is a run of.
- Membership.MembershipStore.constructor: `Valid` of this class states the foreign keys and the owner's row only. Counts and caps are stated for runs, in `InviteCapHolds` and `MembershipIsConserved`.
- Sessions.SessionStore.RotateRefreshSession: both statements of the rotation with nothing in between; overlapping rotations are the business of the transition system.
- Social.SocialStore.CreateFriendRequest: one step. `LateRequestWrite` says what happens when its reads and its write are apart.
- Social.SocialStore.CreateOrGetDirectThread: one step, likewise; see `LateDirectInsert` and `RequestedBetweenFriends`.
- Messages.MessageStore.ListMessages: the permission and membership checks before a listing are not part of it; `Permissions.AuthorizationMeaning` is about the permission check.
- Messages.MessageStore.MarkRead: resolves and stores in one step; `LateMarkerClears` says what happens when the table changes in between.
- Permissions.ResolutionFollowsRule: the six queries read one state of the tables.
- Fanout.FanoutExactlyOnce: at other instances, for connections that stay in the audience while the instance keeps its session and the Redis publish succeeds; a message published while an instance has no session is lost to it.
