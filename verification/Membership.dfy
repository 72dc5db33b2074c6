/**
 Guilds and group threads: who is a member, and invites whose uses are capped.

 A join through an invite is a database transaction of several statements.
 Any number of them run interleaved with each other and with direct joins,
 departures and invite changes; all that orders them is the row lock on the
 invite and the unique index on (space, user). A space is a guild or a group.
 */
module Membership {
  import opened Base

  datatype Kind = Guild | Group

  // `others` is how many members besides the owner it was created with.
  datatype Space = Space(kind: Kind, owner: Id, others: nat)

  datatype Invite = Invite(space: Id, expiresAt: int, maxUses: Option<int>, used: int, revoked: bool)

  // How far a join transaction has got, with what it learnt on the way.
  datatype Phase = Locked | Checked(at: int) | Inserted(at: int, added: bool) | Counted(at: int)

  datatype Tx = Tx(token: Id, user: Id, seen: Invite, phase: Phase)

  // What was committed, in order.
  datatype Event =
    | Created(space: Id, size: nat)
    | Added(space: Id, user: Id)
    | Joined(token: Id, space: Id, user: Id, at: int, seen: Invite)
    | Left(space: Id, user: Id)

  datatype State = State(
    spaces: map<Id, Space>,
    members: set<(Id, Id)>,
    defaultRoles: set<(Id, Id)>,
    invites: map<Id, Invite>,
    open: map<Id, Tx>,
    log: seq<Event>)

  function NoSpaces(): State {
    State(map[], {}, {}, map[], map[], [])
  }

  // ---------------------------------------------------------------- verdict

  datatype JoinError = InviteNotFound | InviteExpired | UsageLimitExceeded | UnknownUser

  datatype Verdict = Pass | AlreadyMember | Refused(error: JoinError)

  // A guild tells members apart before it looks at expiry and cap; a group
  // leaves them to the insert.
  function Judge(kind: Kind, row: Invite, isMember: bool, now: int): Verdict {
    if row.revoked then Refused(InviteNotFound)
    else if kind == Guild && isMember then AlreadyMember
    else if row.expiresAt < now then Refused(InviteExpired)
    else if row.maxUses.Some? && row.used >= row.maxUses.value then Refused(UsageLimitExceeded)
    else Pass
  }

  // ------------------------------------------------------------------ steps

  datatype Step =
    | CreateSpace(space: Id, kind: Kind, owner: Id, others: set<Id>)
    | AddDirectly(space: Id, user: Id)
    | Leave(space: Id, user: Id)
    | CreateInvite(token: Id, space: Id, creator: Id, expiresAt: int, maxUses: Option<int>)
    | RevokeInvite(token: Id)  // by hand: no statement of the server revokes an invite
    | BeginJoin(tx: Id, token: Id, user: Id)
    | CheckJoin(tx: Id, now: int)
    | InsertMember(tx: Id)
    | CountUse(tx: Id)
    | Commit(tx: Id)
    | Abort(tx: Id)

  predicate RowLocked(open: map<Id, Tx>, token: Id) {
    exists x :: x in open && open[x].token == token
  }

  // Transaction x holds an uncommitted member row of this pair.
  predicate Claims(open: map<Id, Tx>, x: Id, space: Id, user: Id) {
    && x in open && open[x].seen.space == space && open[x].user == user
    && (open[x].phase.Counted? || (open[x].phase.Inserted? && open[x].phase.added))
  }

  // Such a row makes every other writer of the pair wait.
  predicate PairClaimed(open: map<Id, Tx>, space: Id, user: Id) {
    exists x :: x in open && Claims(open, x, space, user)
  }

  predicate MayInvite(s: State, space: Id, creator: Id) {
    && space in s.spaces && (space, creator) in s.members
    && (s.spaces[space].kind == Group ==> creator == s.spaces[space].owner)
  }

  // Steps that would block are not enabled; steps that fail change nothing.
  predicate Enabled(s: State, step: Step) {
    match step
    case CreateSpace(id, kind, owner, others) => id !in s.spaces && owner !in others && (kind == Guild ==> others == {})
    case AddDirectly(space, user) => !PairClaimed(s.open, space, user)
    case CreateInvite(token, _, _, _, _) => token !in s.invites
    case RevokeInvite(token) => !RowLocked(s.open, token)
    case BeginJoin(x, token, _) => x !in s.open && !RowLocked(s.open, token)
    case CheckJoin(x, _) => x in s.open && s.open[x].phase.Locked?
    case InsertMember(x) =>
      x in s.open && s.open[x].phase.Checked? && !PairClaimed(s.open, s.open[x].seen.space, s.open[x].user)
    case CountUse(x) => x in s.open && s.open[x].phase.Inserted? && s.open[x].phase.added
    case Commit(x) => x in s.open && (s.open[x].phase.Counted? || (s.open[x].phase.Inserted? && !s.open[x].phase.added))
    case Abort(x) => x in s.open
    case Leave(_, _) => true
  }

  function Rows(space: Id, users: set<Id>): set<(Id, Id)> {
    set u | u in users :: (space, u)
  }

  function SpaceCreated(s: State, id: Id, kind: Kind, owner: Id, others: set<Id>): State {
    s.(spaces := s.spaces[id := Space(kind, owner, |others|)],
       members := s.members + Rows(id, others + {owner}),
       defaultRoles := s.defaultRoles + if kind == Guild then {(id, owner)} else {},
       log := s.log + [Created(id, |others| + 1)])
  }

  function Closed(s: State, x: Id): State {
    s.(open := s.open - {x})
  }

  // A new member row and, in a guild, the row of its default role.
  function Admitted(s: State, space: Id, user: Id): State {
    s.(members := s.members + {(space, user)},
       defaultRoles :=
         s.defaultRoles + if space in s.spaces && s.spaces[space].kind == Guild then {(space, user)} else {})
  }

  function Next(s: State, step: Step): State
    requires Enabled(s, step)
  {
    match step
    case CreateSpace(id, kind, owner, others) => SpaceCreated(s, id, kind, owner, others)
    case AddDirectly(space, user) =>
      if space !in s.spaces || (space, user) in s.members then s
      else Admitted(s, space, user).(log := s.log + [Added(space, user)])
    case Leave(space, user) =>
      if space !in s.spaces || s.spaces[space].owner == user || (space, user) !in s.members then s
      else s.(members := s.members - {(space, user)},
              defaultRoles := s.defaultRoles - {(space, user)},
              log := s.log + [Left(space, user)])
    case CreateInvite(token, space, creator, expiresAt, maxUses) =>
      if !MayInvite(s, space, creator) || (maxUses.Some? && maxUses.value <= 0) then s
      else s.(invites := s.invites[token := Invite(space, expiresAt, maxUses, 0, false)])
    case RevokeInvite(token) =>
      if token !in s.invites then s else s.(invites := s.invites[token := s.invites[token].(revoked := true)])
    case BeginJoin(x, token, user) =>
      if token !in s.invites then s else s.(open := s.open[x := Tx(token, user, s.invites[token], Locked)])
    case CheckJoin(x, now) =>
      var tx := s.open[x];
      var kind := if tx.seen.space in s.spaces then s.spaces[tx.seen.space].kind else Group;
      if Judge(kind, tx.seen, (tx.seen.space, tx.user) in s.members, now) == Pass
      then s.(open := s.open[x := tx.(phase := Checked(now))])
      else Closed(s, x)
    case InsertMember(x) =>
      var tx := s.open[x];
      var added := (tx.seen.space, tx.user) !in s.members;
      s.(open := s.open[x := tx.(phase := Inserted(tx.phase.at, added))])
    case CountUse(x) =>
      s.(open := s.open[x := s.open[x].(phase := Counted(s.open[x].phase.at))])
    case Commit(x) =>
      var tx := s.open[x];
      if tx.phase.Counted? && tx.token in s.invites
      then Closed(Admitted(s, tx.seen.space, tx.user), x).(
             invites := s.invites[tx.token := s.invites[tx.token].(used := s.invites[tx.token].used + 1)],
             log := s.log + [Joined(tx.token, tx.seen.space, tx.user, tx.phase.at, tx.seen)])
      else Closed(s, x)
    case Abort(x) => Closed(s, x)
  }

  // ----------------------------------------------------------------- counts

  // Committed joins through a token.
  function JoinsVia(log: seq<Event>, token: Id): nat {
    if log == [] then 0
    else JoinsVia(log[..|log| - 1], token) + if log[|log| - 1].Joined? && log[|log| - 1].token == token then 1 else 0
  }

  // The history of one space in figures.
  datatype Figures = Figures(created: nat, added: nat, joined: nat, left: nat) {
    function Size(): int {
      created + added + joined - left
    }
  }

  function Plus(f: Figures, e: Event, space: Id): Figures {
    if e.space != space then f
    else match e
      case Created(_, size) => f.(created := f.created + size)
      case Added(_, _) => f.(added := f.added + 1)
      case Joined(_, _, _, _, _) => f.(joined := f.joined + 1)
      case Left(_, _) => f.(left := f.left + 1)
  }

  function Tally(log: seq<Event>, space: Id): Figures {
    if log == [] then Figures(0, 0, 0, 0) else Plus(Tally(log[..|log| - 1], space), log[|log| - 1], space)
  }

  ghost function MembersOf(s: State, space: Id): set<(Id, Id)> {
    set m | m in s.members && m.0 == space
  }

  // -------------------------------------------------------------- invariant

  ghost predicate RowsFit(s: State) {
    && (forall m :: m in s.members ==> m.0 in s.spaces)
    && (forall m :: m in s.defaultRoles <==> m in s.members && s.spaces[m.0].kind == Guild)
    && (forall g :: g in s.spaces ==> (g, s.spaces[g].owner) in s.members)
    && (forall t :: t in s.invites ==> s.invites[t].space in s.spaces)
    && (forall i :: 0 <= i < |s.log| ==> s.log[i].space in s.spaces)
  }

  predicate Admits(row: Invite, at: int) {
    !row.revoked && at <= row.expiresAt && (row.maxUses.Some? ==> row.used < row.maxUses.value)
  }

  // Each open join holds its own invite row, unchanged since it was read, and
  // past the check that row admits one more use.
  ghost predicate LocksHold(s: State) {
    && (forall x, y :: x in s.open && y in s.open && s.open[x].token == s.open[y].token ==> x == y)
    && (forall x :: x in s.open ==> s.open[x].token in s.invites && s.open[x].seen == s.invites[s.open[x].token])
    && (forall x :: x in s.open && !s.open[x].phase.Locked? ==> Admits(s.open[x].seen, s.open[x].phase.at))
  }

  ghost predicate ClaimsHold(s: State) {
    && (forall x: Id, space: Id, user: Id :: Claims(s.open, x, space, user) ==> (space, user) !in s.members)
    && (forall x: Id, y: Id, space: Id, user: Id ::
          Claims(s.open, x, space, user) && Claims(s.open, y, space, user) ==> x == y)
  }

  // Every use count is the number of joins and within its limit.
  ghost predicate InvitesCounted(s: State) {
    forall t :: t in s.invites ==>
      && s.invites[t].used == JoinsVia(s.log, t)
      && (s.invites[t].maxUses.Some? ==> s.invites[t].used <= s.invites[t].maxUses.value)
  }

  // A recorded join saw its invite as it was then, and was admitted by it.
  ghost predicate JoinFits(invites: map<Id, Invite>, log: seq<Event>, i: nat)
    requires i < |log| && log[i].Joined?
  {
    var e := log[i];
    && e.token in invites && e.seen.space == e.space == invites[e.token].space
    && e.seen.expiresAt == invites[e.token].expiresAt && e.seen.maxUses == invites[e.token].maxUses
    && e.seen.used == JoinsVia(log[..i], e.token)
    && Admits(e.seen, e.at)
  }

  ghost predicate JoinsFit(s: State) {
    forall i :: 0 <= i < |s.log| && s.log[i].Joined? ==> JoinFits(s.invites, s.log, i)
  }

  ghost predicate UsesCounted(s: State) {
    InvitesCounted(s) && JoinsFit(s)
  }

  // The figures of one space fit its rows.
  ghost predicate SizeCounted(s: State, g: Id)
    requires g in s.spaces
  {
    && |MembersOf(s, g)| == Tally(s.log, g).Size()
    && Tally(s.log, g).created == 1 + s.spaces[g].others
    && (s.spaces[g].kind == Guild ==> s.spaces[g].others == 0)
  }

  ghost predicate SizesCounted(s: State) {
    forall g :: g in s.spaces ==> SizeCounted(s, g)
  }

  ghost predicate Inv(s: State) {
    RowsFit(s) && LocksHold(s) && ClaimsHold(s) && UsesCounted(s) && SizesCounted(s)
  }

  // ------------------------------------------------------------ preservation

  // Whether a step only moves a transaction along, committing nothing.
  predicate MovesOnly(s: State, step: Step) {
    step.BeginJoin? || step.CheckJoin? || step.InsertMember? || step.CountUse? || step.Abort?
    || (step.Commit? && step.tx in s.open && s.open[step.tx].phase.Inserted?)
  }

  lemma MovesOnlyOpen(s: State, step: Step)
    requires Enabled(s, step) && MovesOnly(s, step)
    ensures Next(s, step) == s.(open := Next(s, step).open)
  {
  }

  lemma TallyAppend(log: seq<Event>, e: Event, g: Id)
    ensures Tally(log + [e], g) == Plus(Tally(log, g), e, g)
  {
    assert (log + [e])[..|log|] == log;
  }

  lemma JoinsAppend(log: seq<Event>, e: Event, t: Id)
    ensures JoinsVia(log + [e], t) == JoinsVia(log, t) + if e.Joined? && e.token == t then 1 else 0
  {
    assert (log + [e])[..|log|] == log;
  }

  lemma {:induction false} UnmentionedTally(log: seq<Event>, g: Id)
    requires forall i :: 0 <= i < |log| ==> log[i].space != g
    ensures Tally(log, g) == Figures(0, 0, 0, 0)
  {
    if log == [] {
    } else {
      UnmentionedTally(log[..|log| - 1], g);
    }
  }

  lemma {:induction false} UnmentionedJoins(log: seq<Event>, t: Id)
    requires forall i :: 0 <= i < |log| && log[i].Joined? ==> log[i].token != t
    ensures JoinsVia(log, t) == 0
  {
    if log == [] {
    } else {
      UnmentionedJoins(log[..|log| - 1], t);
    }
  }

  lemma {:induction false} RowsCount(g: Id, us: set<Id>)
    ensures |Rows(g, us)| == |us|
  {
    if us == {} {
    } else {
      var u :| u in us;
      RowsCount(g, us - {u});
      assert (g, u) !in Rows(g, us - {u}) && Rows(g, us) == Rows(g, us - {u}) + {(g, u)};
    }
  }

  lemma RowsWithOwner(members: set<(Id, Id)>, id: Id, owner: Id, others: set<Id>)
    ensures members + {(id, owner)} + Rows(id, others) == members + Rows(id, others + {owner})
    ensures others == {} ==> members + {(id, owner)} == members + Rows(id, others + {owner})
  {
  }

  lemma CreateSpaceRows(s: State, id: Id, kind: Kind, owner: Id, others: set<Id>)
    requires RowsFit(s) && id !in s.spaces && (kind == Guild ==> others == {})
    ensures RowsFit(SpaceCreated(s, id, kind, owner, others))
  {
    var t := SpaceCreated(s, id, kind, owner, others);
    assert forall m :: m in t.members <==> m in s.members || (m.0 == id && m.1 in others + {owner});
  }

  lemma CreateSpaceClaims(s: State, id: Id, kind: Kind, owner: Id, others: set<Id>)
    requires RowsFit(s) && LocksHold(s) && ClaimsHold(s) && id !in s.spaces
    ensures LocksHold(SpaceCreated(s, id, kind, owner, others)) && ClaimsHold(SpaceCreated(s, id, kind, owner, others))
  {
  }

  // A space keeps its figures when an event moves both by the same amount.
  lemma EventKeepsSize(s: State, t: State, g: Id, e: Event)
    requires g in s.spaces && g in t.spaces && t.spaces[g] == s.spaces[g] && SizeCounted(s, g)
    requires t.log == s.log + [e] && (e.Created? ==> e.space != g)
    requires |MembersOf(t, g)| == |MembersOf(s, g)| + if e.space != g then 0 else if e.Left? then -1 else 1
    ensures SizeCounted(t, g)
  {
    TallyAppend(s.log, e, g);
  }

  lemma OtherSpaceSize(s: State, id: Id, kind: Kind, owner: Id, others: set<Id>, g: Id)
    requires g in s.spaces && SizeCounted(s, g) && g != id
    ensures SizeCounted(SpaceCreated(s, id, kind, owner, others), g)
  {
    var t := SpaceCreated(s, id, kind, owner, others);
    assert MembersOf(t, g) == MembersOf(s, g);
    EventKeepsSize(s, t, g, Created(id, |others| + 1));
  }

  lemma NewSpaceSize(s: State, id: Id, kind: Kind, owner: Id, others: set<Id>)
    requires RowsFit(s) && id !in s.spaces && owner !in others && (kind == Guild ==> others == {})
    ensures SizeCounted(SpaceCreated(s, id, kind, owner, others), id)
  {
    var users := others + {owner};
    RowsCount(id, users);
    assert MembersOf(SpaceCreated(s, id, kind, owner, others), id) == Rows(id, users);
    UnmentionedTally(s.log, id);
    TallyAppend(s.log, Created(id, |others| + 1), id);
  }

  lemma CreateSpaceSizes(s: State, id: Id, kind: Kind, owner: Id, others: set<Id>)
    requires RowsFit(s) && SizesCounted(s) && id !in s.spaces && owner !in others && (kind == Guild ==> others == {})
    ensures SizesCounted(SpaceCreated(s, id, kind, owner, others))
  {
    var t := SpaceCreated(s, id, kind, owner, others);
    forall g | g in t.spaces
      ensures SizeCounted(t, g)
    {
      if g == id {
        NewSpaceSize(s, id, kind, owner, others);
      } else {
        OtherSpaceSize(s, id, kind, owner, others, g);
      }
    }
  }

  // An earlier join still fits when the log grows and its invite keeps all but
  // its use count.
  lemma JoinStillFits(invites: map<Id, Invite>, later: map<Id, Invite>, log: seq<Event>, e: Event, i: nat)
    requires i < |log| && log[i].Joined? && JoinFits(invites, log, i)
    requires log[i].token in later
    requires var t := log[i].token;
             later[t].(used := 0, revoked := false) == invites[t].(used := 0, revoked := false)
    ensures (log + [e])[i] == log[i] && JoinFits(later, log + [e], i)
  {
    assert (log + [e])[..i] == log[..i];
  }

  // An event that is not a join leaves the uses of all invites as they were.
  lemma QuietEventKeepsUses(s: State, t: State, e: Event)
    requires UsesCounted(s) && t.invites == s.invites && t.log == s.log + [e] && !e.Joined?
    ensures UsesCounted(t)
  {
    forall tok
      ensures JoinsVia(t.log, tok) == JoinsVia(s.log, tok)
    {
      JoinsAppend(s.log, e, tok);
    }
    forall i | 0 <= i < |t.log| && t.log[i].Joined?
      ensures JoinFits(t.invites, t.log, i)
    {
      JoinStillFits(s.invites, t.invites, s.log, e, i);
    }
  }

  lemma CreateSpaceKeeps(s: State, id: Id, kind: Kind, owner: Id, others: set<Id>)
    requires Inv(s) && id !in s.spaces && owner !in others && (kind == Guild ==> others == {})
    ensures Inv(SpaceCreated(s, id, kind, owner, others))
  {
    CreateSpaceRows(s, id, kind, owner, others);
    CreateSpaceClaims(s, id, kind, owner, others);
    QuietEventKeepsUses(s, SpaceCreated(s, id, kind, owner, others), Created(id, |others| + 1));
    CreateSpaceSizes(s, id, kind, owner, others);
  }

  lemma AdmissionKeepsRest(s: State, step: Step)
    requires RowsFit(s) && LocksHold(s) && ClaimsHold(s) && Enabled(s, step) && (step.AddDirectly? || step.Leave?)
    ensures RowsFit(Next(s, step)) && LocksHold(Next(s, step)) && ClaimsHold(Next(s, step))
  {
  }

  // One more member row, recorded by one event, keeps the sizes right.
  lemma AdmissionCounts(s: State, t: State, space: Id, user: Id, e: Event)
    requires SizesCounted(s) && space in s.spaces && (space, user) !in s.members
    requires t.spaces == s.spaces && t.members == s.members + {(space, user)} && t.log == s.log + [e]
    requires e.space == space && (e.Added? || e.Joined?)
    ensures SizesCounted(t)
  {
    forall g | g in t.spaces
      ensures SizeCounted(t, g)
    {
      assert MembersOf(t, g) == MembersOf(s, g) + if g == space then {(space, user)} else {};
      EventKeepsSize(s, t, g, e);
    }
  }

  lemma AddDirectlyKeeps(s: State, step: Step)
    requires Inv(s) && Enabled(s, step) && step.AddDirectly?
    ensures Inv(Next(s, step))
  {
    AdmissionKeepsRest(s, step);
    if Next(s, step) != s {
      AdmissionCounts(s, Next(s, step), step.space, step.user, Added(step.space, step.user));
      QuietEventKeepsUses(s, Next(s, step), Added(step.space, step.user));
    }
  }

  lemma LeaveKeepsSizes(s: State, step: Step)
    requires SizesCounted(s) && step.Leave? && Next(s, step) != s
    ensures SizesCounted(Next(s, step))
  {
    var t := Next(s, step);
    forall g | g in t.spaces
      ensures SizeCounted(t, g)
    {
      assert MembersOf(t, g) == MembersOf(s, g) - if g == step.space then {(step.space, step.user)} else {};
      EventKeepsSize(s, t, g, Left(step.space, step.user));
    }
  }

  lemma LeaveKeeps(s: State, step: Step)
    requires Inv(s) && Enabled(s, step) && step.Leave?
    ensures Inv(Next(s, step))
  {
    AdmissionKeepsRest(s, step);
    if Next(s, step) != s {
      LeaveKeepsSizes(s, step);
      QuietEventKeepsUses(s, Next(s, step), Left(step.space, step.user));
    }
  }

  lemma InviteStepRest(s: State, step: Step)
    requires RowsFit(s) && LocksHold(s) && ClaimsHold(s)
    requires Enabled(s, step) && (step.CreateInvite? || step.RevokeInvite?)
    ensures RowsFit(Next(s, step)) && LocksHold(Next(s, step)) && ClaimsHold(Next(s, step))
  {
  }

  lemma InviteStepUses(s: State, step: Step)
    requires UsesCounted(s) && Enabled(s, step) && (step.CreateInvite? || step.RevokeInvite?)
    ensures UsesCounted(Next(s, step))
  {
    if step.CreateInvite? {
      UnmentionedJoins(s.log, step.token);
    }
  }

  lemma SameSizes(s: State, t: State)
    requires SizesCounted(s) && t.spaces == s.spaces && t.members == s.members && t.log == s.log
    ensures SizesCounted(t)
  {
    forall g | g in t.spaces
      ensures SizeCounted(t, g)
    {
      assert MembersOf(t, g) == MembersOf(s, g);
    }
  }

  lemma InviteStepKeeps(s: State, step: Step)
    requires Inv(s) && Enabled(s, step) && (step.CreateInvite? || step.RevokeInvite?)
    ensures Inv(Next(s, step))
  {
    SameSizes(s, Next(s, step));
    InviteStepUses(s, step);
    InviteStepRest(s, step);
  }

  lemma BeginKeepsLocks(s: State, x: Id, token: Id, user: Id)
    requires LocksHold(s) && Enabled(s, BeginJoin(x, token, user))
    ensures LocksHold(Next(s, BeginJoin(x, token, user)))
  {
  }

  lemma CheckKeepsLocks(s: State, x: Id, now: int)
    requires LocksHold(s) && Enabled(s, CheckJoin(x, now))
    ensures LocksHold(Next(s, CheckJoin(x, now)))
  {
  }

  lemma MoveKeepsLocks(s: State, step: Step)
    requires LocksHold(s) && Enabled(s, step) && MovesOnly(s, step)
    ensures LocksHold(Next(s, step))
  {
    match step
    case BeginJoin(x, token, user) => BeginKeepsLocks(s, x, token, user);
    case CheckJoin(x, now) => CheckKeepsLocks(s, x, now);
    case _ =>
  }

  // The member row an insert statement has just written.
  predicate NewClaim(s: State, step: Step, x: Id, space: Id, user: Id) {
    && step == InsertMember(x) && x in s.open && s.open[x].seen.space == space && s.open[x].user == user
    && (space, user) !in s.members
  }

  lemma MoveKeepsClaims(s: State, step: Step)
    requires ClaimsHold(s) && Enabled(s, step) && MovesOnly(s, step)
    ensures ClaimsHold(Next(s, step))
  {
    forall x: Id, space: Id, user: Id
      ensures Claims(Next(s, step).open, x, space, user) ==>
                Claims(s.open, x, space, user) || NewClaim(s, step, x, space, user)
    {
    }
  }

  lemma SameCommitted(s: State, open: map<Id, Tx>)
    requires RowsFit(s) && UsesCounted(s) && SizesCounted(s)
    ensures var t := s.(open := open); RowsFit(t) && UsesCounted(t) && SizesCounted(t)
  {
    SameSizes(s, s.(open := open));
  }

  lemma MoveKeeps(s: State, step: Step)
    requires Inv(s) && Enabled(s, step) && MovesOnly(s, step)
    ensures Inv(Next(s, step))
  {
    var open := Next(s, step).open;
    MovesOnlyOpen(s, step);
    MoveKeepsLocks(s, step);
    MoveKeepsClaims(s, step);
    SameCommitted(s, open);
  }

  lemma CommitKeepsRows(s: State, step: Step)
    requires RowsFit(s) && LocksHold(s) && Enabled(s, step) && step.Commit? && !MovesOnly(s, step)
    ensures RowsFit(Next(s, step))
  {
  }

  lemma CommitKeepsLocks(s: State, step: Step)
    requires LocksHold(s) && Enabled(s, step) && step.Commit? && !MovesOnly(s, step)
    ensures LocksHold(Next(s, step))
  {
  }

  lemma CommitKeepsClaims(s: State, step: Step)
    requires ClaimsHold(s) && Enabled(s, step) && step.Commit? && !MovesOnly(s, step)
    ensures ClaimsHold(Next(s, step))
  {
    var tx := s.open[step.tx];
    assert Claims(s.open, step.tx, tx.seen.space, tx.user);
    assert forall x: Id, space: Id, user: Id ::
        Claims(Next(s, step).open, x, space, user) ==> Claims(s.open, x, space, user);
  }

  // One join through an invite as the table holds it, which admits it, counts
  // as one use.
  lemma JoinKeepsUses(s: State, t: State, e: Event)
    requires UsesCounted(s) && e.Joined? && e.token in s.invites
    requires e.seen == s.invites[e.token] && e.space == e.seen.space && Admits(e.seen, e.at)
    requires t.log == s.log + [e] && t.invites == s.invites[e.token := e.seen.(used := e.seen.used + 1)]
    ensures UsesCounted(t)
  {
    forall tok | tok in t.invites
      ensures t.invites[tok].used == JoinsVia(t.log, tok)
    {
      JoinsAppend(s.log, e, tok);
    }
    forall i | 0 <= i < |t.log| && t.log[i].Joined?
      ensures JoinFits(t.invites, t.log, i)
    {
      if i < |s.log| {
        JoinStillFits(s.invites, t.invites, s.log, e, i);
      } else {
        assert t.log[..i] == s.log;
      }
    }
  }

  lemma CommitKeepsUses(s: State, step: Step)
    requires UsesCounted(s) && LocksHold(s) && Enabled(s, step) && step.Commit? && !MovesOnly(s, step)
    ensures UsesCounted(Next(s, step))
  {
    var tx := s.open[step.tx];
    JoinKeepsUses(s, Next(s, step), Joined(tx.token, tx.seen.space, tx.user, tx.phase.at, tx.seen));
  }

  // The committing transaction holds the row it counted on, so the use it
  // adds is the one its own check admitted.
  lemma CommitKeeps(s: State, step: Step)
    requires Inv(s) && Enabled(s, step) && step.Commit? && !MovesOnly(s, step)
    ensures Inv(Next(s, step))
  {
    var tx := s.open[step.tx];
    assert Claims(s.open, step.tx, tx.seen.space, tx.user);
    CommitKeepsRows(s, step);
    CommitKeepsLocks(s, step);
    CommitKeepsClaims(s, step);
    CommitKeepsUses(s, step);
    AdmissionCounts(s, Next(s, step), tx.seen.space, tx.user,
                    Joined(tx.token, tx.seen.space, tx.user, tx.phase.at, tx.seen));
  }

  lemma NextKeepsInv(s: State, step: Step)
    requires Inv(s) && Enabled(s, step)
    ensures Inv(Next(s, step))
  {
    if MovesOnly(s, step) {
      MoveKeeps(s, step);
    } else {
      match step
      case CreateSpace(id, kind, owner, others) => CreateSpaceKeeps(s, id, kind, owner, others);
      case AddDirectly(_, _) => AddDirectlyKeeps(s, step);
      case Leave(_, _) => LeaveKeeps(s, step);
      case CreateInvite(_, _, _, _, _) => InviteStepKeeps(s, step);
      case RevokeInvite(_) => InviteStepKeeps(s, step);
      case Commit(_) => CommitKeeps(s, step);
    }
  }

  // -------------------------------------------------------------------- runs

  ghost predicate Feasible(s: State, steps: seq<Step>)
    decreases |steps|
  {
    steps == [] || (Enabled(s, steps[0]) && Feasible(Next(s, steps[0]), steps[1..]))
  }

  ghost function Run(s: State, steps: seq<Step>): State
    requires Feasible(s, steps)
    decreases |steps|
  {
    if steps == [] then s else Run(Next(s, steps[0]), steps[1..])
  }

  lemma {:induction false} RunKeepsInv(s: State, steps: seq<Step>)
    requires Inv(s) && Feasible(s, steps)
    ensures Inv(Run(s, steps))
    decreases |steps|
  {
    if steps == [] {
    } else {
      NextKeepsInv(s, steps[0]);
      RunKeepsInv(Next(s, steps[0]), steps[1..]);
    }
  }

  // CAP. After any interleaving from empty tables, an invite's use count is the
  // number of members it let in, and never above its limit.
  lemma InviteCapHolds(steps: seq<Step>, token: Id)
    requires Feasible(NoSpaces(), steps)
    requires token in Run(NoSpaces(), steps).invites
    ensures var s := Run(NoSpaces(), steps);
            && s.invites[token].used == JoinsVia(s.log, token)
            && (s.invites[token].maxUses.Some? ==> JoinsVia(s.log, token) <= s.invites[token].maxUses.value)
  {
    RunKeepsInv(NoSpaces(), steps);
  }

  // Whoever an invite let in was admitted when it was not revoked, not expired
  // and had let in fewer than its limit: the row that was checked is the one
  // the table held, its use count the joins committed before this one.
  lemma JoinsWereAdmitted(steps: seq<Step>, i: nat)
    requires Feasible(NoSpaces(), steps)
    requires i < |Run(NoSpaces(), steps).log| && Run(NoSpaces(), steps).log[i].Joined?
    ensures var s := Run(NoSpaces(), steps);
            var e := s.log[i];
            && e.token in s.invites && e.space == s.invites[e.token].space
            && !e.seen.revoked && e.at <= s.invites[e.token].expiresAt
            && e.seen.used == JoinsVia(s.log[..i], e.token)
            && (s.invites[e.token].maxUses.Some? ==> JoinsVia(s.log[..i], e.token) < s.invites[e.token].maxUses.value)
  {
    RunKeepsInv(NoSpaces(), steps);
    assert UsesCounted(Run(NoSpaces(), steps));
  }

  ghost predicate RevokedAt(s: State, token: Id, uses: int) {
    token in s.invites && s.invites[token].revoked && s.invites[token].used == uses
  }

  lemma NextKeepsRevoked(s: State, step: Step, token: Id, uses: int)
    requires LocksHold(s) && Enabled(s, step) && RevokedAt(s, token, uses)
    ensures RevokedAt(Next(s, step), token, uses)
  {
  }

  lemma {:induction false} RunKeepsRevoked(s: State, steps: seq<Step>, token: Id, uses: int)
    requires Inv(s) && Feasible(s, steps) && RevokedAt(s, token, uses)
    ensures Inv(Run(s, steps)) && RevokedAt(Run(s, steps), token, uses)
    decreases |steps|
  {
    if steps == [] {
    } else {
      NextKeepsInv(s, steps[0]);
      NextKeepsRevoked(s, steps[0], token, uses);
      RunKeepsRevoked(Next(s, steps[0]), steps[1..], token, uses);
    }
  }

  // REVOKED IS FINAL. Once an invite is revoked it lets nobody in any more.
  lemma RevokedAdmitsNobody(s: State, token: Id, steps: seq<Step>)
    requires Inv(s) && token in s.invites && Enabled(s, RevokeInvite(token))
    requires Feasible(Next(s, RevokeInvite(token)), steps)
    ensures JoinsVia(Run(Next(s, RevokeInvite(token)), steps).log, token) == JoinsVia(s.log, token)
  {
    NextKeepsInv(s, RevokeInvite(token));
    RunKeepsRevoked(Next(s, RevokeInvite(token)), steps, token, s.invites[token].used);
  }

  lemma ClosedFreesInvite(s: State, x: Id)
    requires LocksHold(s) && x in s.open
    ensures var open := Closed(s, x).open;
            && x !in open && !RowLocked(open, s.open[x].token)
            && (forall y :: y in s.open && y != x ==> y in open && open[y] == s.open[y])
  {
  }

  // A transaction that ends, one way or the other, frees the invite for the
  // next; one that aborts leaves no trace.
  lemma EndFreesInvite(s: State, step: Step)
    requires LocksHold(s) && Enabled(s, step) && (step.Commit? || step.Abort?)
    ensures var t := Next(s, step);
            && step.tx !in t.open && !RowLocked(t.open, s.open[step.tx].token)
            && (forall y :: y in s.open && y != step.tx ==> y in t.open && t.open[y] == s.open[y])
            && (step.Abort? ==> t == s.(open := t.open))
  {
    ClosedFreesInvite(s, step.tx);
    assert Next(s, step).open == Closed(s, step.tx).open;
  }

  // ------------------------------------------------------------ conservation

  ghost function Pick(tokens: set<Id>): Id
    requires tokens != {}
  {
    var t :| t in tokens; t
  }

  // The uses of several invites together.
  ghost function SumUsed(invites: map<Id, Invite>, tokens: set<Id>): int
    requires tokens <= invites.Keys
  {
    if tokens == {} then 0
    else invites[Pick(tokens)].used + SumUsed(invites, tokens - {Pick(tokens)})
  }

  ghost function SumJoins(log: seq<Event>, tokens: set<Id>): nat {
    if tokens == {} then 0
    else JoinsVia(log, Pick(tokens)) + SumJoins(log, tokens - {Pick(tokens)})
  }

  ghost function InvitesOf(s: State, space: Id): set<Id> {
    set t | t in s.invites && s.invites[t].space == space
  }

  lemma {:induction false} SumUsedIsSumJoins(s: State, tokens: set<Id>)
    requires UsesCounted(s) && tokens <= s.invites.Keys
    ensures SumUsed(s.invites, tokens) == SumJoins(s.log, tokens)
  {
    if tokens == {} {
    } else {
      assert Pick(tokens) in s.invites;
      SumUsedIsSumJoins(s, tokens - {Pick(tokens)});
    }
  }

  lemma {:induction false} SumJoinsAppend(log: seq<Event>, e: Event, tokens: set<Id>)
    ensures SumJoins(log + [e], tokens) == SumJoins(log, tokens) + if e.Joined? && e.token in tokens then 1 else 0
  {
    if tokens == {} {
    } else {
      JoinsAppend(log, e, Pick(tokens));
      SumJoinsAppend(log, e, tokens - {Pick(tokens)});
    }
  }

  lemma {:induction false} SumOfNoJoins(tokens: set<Id>)
    ensures SumJoins([], tokens) == 0
  {
    if tokens == {} {
    } else {
      SumOfNoJoins(tokens - {Pick(tokens)});
    }
  }

  // The joins of a space are the joins through its own invites.
  lemma {:induction false} JoinedIsSumJoins(log: seq<Event>, space: Id, tokens: set<Id>)
    requires forall i :: 0 <= i < |log| && log[i].Joined? ==> (log[i].token in tokens <==> log[i].space == space)
    ensures Tally(log, space).joined == SumJoins(log, tokens)
  {
    if log == [] {
      SumOfNoJoins(tokens);
    } else {
      var n := |log| - 1;
      assert log == log[..n] + [log[n]];
      JoinedIsSumJoins(log[..n], space, tokens);
      SumJoinsAppend(log[..n], log[n], tokens);
    }
  }

  // CONSERVATION. After any interleaving the size of a space is its initial
  // membership, plus direct joins, plus the uses of its invites, minus
  // departures; the owner is a member; in a guild the members are exactly the
  // holders of the default role.
  lemma MembershipIsConserved(steps: seq<Step>, space: Id)
    requires Feasible(NoSpaces(), steps) && space in Run(NoSpaces(), steps).spaces
    ensures var s := Run(NoSpaces(), steps);
            var figures := Tally(s.log, space);
            && |MembersOf(s, space)| ==
               1 + s.spaces[space].others + figures.added + SumUsed(s.invites, InvitesOf(s, space)) - figures.left
            && (space, s.spaces[space].owner) in s.members
            && (s.spaces[space].kind == Guild ==>
                  && s.spaces[space].others == 0
                  && forall u: Id :: (space, u) in s.members <==> (space, u) in s.defaultRoles)
  {
    RunKeepsInv(NoSpaces(), steps);
    var s := Run(NoSpaces(), steps);
    SumUsedIsSumJoins(s, InvitesOf(s, space));
    JoinedIsSumJoins(s.log, space, InvitesOf(s, space));
  }

  // ------------------------------------------------------ a join on its own

  // A join that nothing interleaves with.
  function JoinNow(s: State, token: Id, user: Id, now: int): (State, Result<bool, JoinError>)
    requires RowsFit(s)
  {
    if token !in s.invites then (s, Err(InviteNotFound))
    else
      var row := s.invites[token];
      var isMember := (row.space, user) in s.members;
      match Judge(s.spaces[row.space].kind, row, isMember, now)
      case Refused(error) => (s, Err(error))
      case AlreadyMember => (s, Ok(false))
      case Pass =>
        if isMember then (s, Ok(false))
        else (Admitted(s, row.space, user).(
                invites := s.invites[token := row.(used := row.used + 1)],
                log := s.log + [Joined(token, row.space, user, now, row)]), Ok(true))
  }

  // WHO GETS IN. A join admits exactly whoever is not a member yet, by an
  // invite neither revoked nor expired nor used up: the last use counts too.
  // Each error has its own condition, in the order of the checks, and a member
  // is told so: in a guild before expiry and cap are looked at, in a group after.
  lemma JoinOutcomes(s: State, token: Id, user: Id, now: int)
    requires RowsFit(s)
    ensures JoinNow(s, token, user, now).1 == Err(InviteNotFound) <==> token !in s.invites || s.invites[token].revoked
    ensures token in s.invites && !s.invites[token].revoked ==>
              var row := s.invites[token];
              var outcome := JoinNow(s, token, user, now).1;
              var isMember := (row.space, user) in s.members;
              var judged := s.spaces[row.space].kind == Group || !isMember;
              var usable := now <= row.expiresAt && (row.maxUses == None || row.used < row.maxUses.value);
              && (outcome == Err(InviteExpired) <==> judged && now > row.expiresAt)
              && (outcome == Err(UsageLimitExceeded) <==>
                    judged && now <= row.expiresAt && row.maxUses.Some? && row.maxUses.value <= row.used)
              && (outcome == Ok(true) <==> !isMember && usable)
              && (outcome == Ok(false) <==> isMember && (!judged || usable))
    ensures JoinNow(s, token, user, now).1 != Ok(true) ==> JoinNow(s, token, user, now).0 == s
    ensures JoinNow(s, token, user, now).1 == Ok(true) ==>
              var row := s.invites[token];
              var t := JoinNow(s, token, user, now).0;
              && t.members == s.members + {(row.space, user)}
              && t.defaultRoles ==
                 s.defaultRoles + (if s.spaces[row.space].kind == Guild then {(row.space, user)} else {})
              && t.invites == s.invites[token := Invite(row.space, row.expiresAt, row.maxUses, row.used + 1, false)]
              && t.spaces == s.spaces && t.open == s.open
  {
  }

  // The same of the check of a join among others: it passes exactly for a row
  // that admits one more, unless a guild knows the user as a member, and the
  // transaction ends otherwise.
  lemma CheckPasses(s: State, x: Id, now: int)
    requires RowsFit(s) && LocksHold(s) && Enabled(s, CheckJoin(x, now))
    ensures var tx := s.open[x];
            var t := Next(s, CheckJoin(x, now));
            && tx.token in s.invites && tx.seen == s.invites[tx.token] && tx.seen.space in s.spaces
            && (x in t.open <==>
                  && !tx.seen.revoked && now <= tx.seen.expiresAt
                  && (tx.seen.maxUses == None || tx.seen.used < tx.seen.maxUses.value)
                  && (s.spaces[tx.seen.space].kind == Group || (tx.seen.space, tx.user) !in s.members))
            && (x in t.open ==> t.open[x] == Tx(tx.token, tx.user, tx.seen, Checked(now)))
            && t == s.(open := t.open) && forall y :: y in s.open && y != x ==> y in t.open && t.open[y] == s.open[y]
  {
  }

  lemma Prepend(s: State, step: Step, rest: seq<Step>) returns (steps: seq<Step>)
    requires Enabled(s, step) && Feasible(Next(s, step), rest)
    ensures steps == [step] + rest && Feasible(s, steps) && Run(s, steps) == Run(Next(s, step), rest)
  {
    steps := [step] + rest;
    assert steps[1..] == rest;
  }

  lemma InsertedJoin(s: State, s2: State, x: Id, token: Id, user: Id, now: int) returns (steps: seq<Step>)
    requires RowsFit(s) && s.open == map[] && token in s.invites
    requires s2 == s.(open := map[x := Tx(token, user, s.invites[token], Checked(now))])
    requires var row := s.invites[token];
             Judge(s.spaces[row.space].kind, row, (row.space, user) in s.members, now) == Pass
    ensures Feasible(s2, steps) && Run(s2, steps) == JoinNow(s, token, user, now).0
    ensures forall step :: step in steps ==> step in {InsertMember(x), CountUse(x), Commit(x)}
  {
    var s3 := Next(s2, InsertMember(x));
    if (s.invites[token].space, user) in s.members {
      assert Next(s3, Commit(x)) == s;
      steps := Prepend(s3, Commit(x), []);
    } else {
      var s4 := Next(s3, CountUse(x));
      assert Next(s4, Commit(x)) == JoinNow(s, token, user, now).0;
      steps := Prepend(s4, Commit(x), []);
      steps := Prepend(s3, CountUse(x), steps);
    }
    steps := Prepend(s2, InsertMember(x), steps);
  }

  lemma CheckedJoin(s: State, s1: State, x: Id, token: Id, user: Id, now: int) returns (steps: seq<Step>)
    requires RowsFit(s) && s.open == map[] && token in s.invites && s1 == Next(s, BeginJoin(x, token, user))
    ensures Feasible(s1, steps) && Run(s1, steps) == JoinNow(s, token, user, now).0
    ensures forall step :: step in steps ==> step in {CheckJoin(x, now), InsertMember(x), CountUse(x), Commit(x)}
  {
    var row := s.invites[token];
    var s2 := Next(s1, CheckJoin(x, now));
    if Judge(s.spaces[row.space].kind, row, (row.space, user) in s.members, now) != Pass {
      assert s2 == s;
      steps := Prepend(s1, CheckJoin(x, now), []);
    } else {
      assert s2 == s.(open := map[x := Tx(token, user, row, Checked(now))]);
      steps := InsertedJoin(s, s2, x, token, user, now);
      steps := Prepend(s1, CheckJoin(x, now), steps);
    }
  }

  // A join on its own is a run of the join's own steps.
  lemma JoinNowIsARun(s: State, x: Id, token: Id, user: Id, now: int) returns (steps: seq<Step>)
    requires Inv(s) && s.open == map[]
    ensures Feasible(s, steps) && Run(s, steps) == JoinNow(s, token, user, now).0
    ensures forall step :: step in steps ==>
              step == BeginJoin(x, token, user) || step in {CheckJoin(x, now), InsertMember(x), CountUse(x), Commit(x)}
  {
    if token !in s.invites {
      return [];
    }
    var s1 := Next(s, BeginJoin(x, token, user));
    steps := CheckedJoin(s, s1, x, token, user, now);
    steps := Prepend(s, BeginJoin(x, token, user), steps);
  }

  // ------------------------------------------------- what atomicity is for

  // In a guild the default role is held by the members.
  ghost predicate RoleFits(s: State, m: (Id, Id)) {
    m in s.defaultRoles <==> m in s.members && m.0 in s.spaces && s.spaces[m.0].kind == Guild
  }

  // `remove_member` deletes the member row, and in a second statement outside
  // any transaction the role rows.
  function RowDeleted(s: State, space: Id, user: Id): State {
    s.(members := s.members - {(space, user)})
  }

  function RolesDeleted(s: State, space: Id, user: Id): State {
    s.(defaultRoles := s.defaultRoles - {(space, user)})
  }

  // Whatever came in between, the second statement leaves roles and members in
  // agreement exactly unless the user is a member again by then.
  lemma LateRoleDelete(s: State, space: Id, user: Id)
    requires space in s.spaces && s.spaces[space].kind == Guild
    requires forall m: (Id, Id) :: m != (space, user) ==> RoleFits(s, m)
    ensures (forall m: (Id, Id) :: RoleFits(RolesDeleted(s, space, user), m)) <==> (space, user) !in s.members
  {
    var t := RolesDeleted(s, space, user);
    assert forall m: (Id, Id) :: m != (space, user) ==> (RoleFits(t, m) <==> RoleFits(s, m));
    assert RoleFits(t, (space, user)) <==> (space, user) !in s.members;
  }

  // An admission to a guild fails as a whole on a role row that is there
  // already: the key of the role rows admits no second one.
  function Attempted(s: State, m: (Id, Id)): State {
    if m.0 !in s.spaces || m in s.members || (s.spaces[m.0].kind == Guild && m in s.defaultRoles) then s
    else Admitted(s, m.0, m.1)
  }

  function AllAttempted(s: State, ms: seq<(Id, Id)>): State
    decreases |ms|
  {
    if ms == [] then s else AllAttempted(Attempted(s, ms[0]), ms[1..])
  }

  lemma AttemptFits(s: State, m: (Id, Id), space: Id, user: Id)
    requires space in s.spaces && s.spaces[space].kind == Guild && (space, user) in s.defaultRoles
    requires forall x: (Id, Id) :: x != (space, user) ==> RoleFits(s, x)
    ensures forall x: (Id, Id) :: x != (space, user) ==> RoleFits(Attempted(s, m), x)
    ensures (space, user) in Attempted(s, m).defaultRoles && Attempted(s, m).spaces == s.spaces
    ensures (space, user) in Attempted(s, m).members <==> (space, user) in s.members
  {
    forall x: (Id, Id) | x != (space, user)
      ensures RoleFits(Attempted(s, m), x)
    {
      assert RoleFits(s, x);
    }
  }

  // Between the two statements of a call that found a member, the role row left
  // over keeps the user out.
  lemma {:induction false} LeftoverRoleKeepsOut(s: State, space: Id, user: Id, ms: seq<(Id, Id)>)
    requires space in s.spaces && s.spaces[space].kind == Guild
    requires (space, user) !in s.members && (space, user) in s.defaultRoles
    requires forall m: (Id, Id) :: m != (space, user) ==> RoleFits(s, m)
    ensures var t := AllAttempted(s, ms);
            (space, user) !in t.members && forall m: (Id, Id) :: RoleFits(RolesDeleted(t, space, user), m)
    decreases |ms|
  {
    if ms == [] {
      LateRoleDelete(s, space, user);
    } else {
      AttemptFits(s, ms[0], space, user);
      LeftoverRoleKeepsOut(Attempted(s, ms[0]), space, user, ms[1..]);
    }
  }

  // Admissions keep roles and members in agreement, and let a user of an
  // existing guild in exactly when they are asked to.
  lemma {:induction false} AttemptsAgree(s: State, space: Id, user: Id, ms: seq<(Id, Id)>)
    requires space in s.spaces && forall m: (Id, Id) :: RoleFits(s, m)
    ensures var t := AllAttempted(s, ms);
            && t.spaces == s.spaces
            && (forall m: (Id, Id) :: RoleFits(t, m))
            && ((space, user) in t.members <==> (space, user) in s.members || (space, user) in ms)
    decreases |ms|
  {
    if ms == [] {
    } else {
      var t := Attempted(s, ms[0]);
      forall m: (Id, Id)
        ensures RoleFits(t, m)
      {
        assert RoleFits(s, m) && RoleFits(s, ms[0]);
      }
      assert (space, user) in ms <==> (space, user) == ms[0] || (space, user) in ms[1..];
      AttemptsAgree(t, space, user, ms[1..]);
    }
  }

  // EXACTLY A JOIN MEANWHILE. One call of `remove_member`, with any admissions
  // between its statements, leaves roles and members in agreement exactly if
  // the user was a member when it was called or is not among the admissions.
  lemma OneDeparture(s: State, space: Id, user: Id, ms: seq<(Id, Id)>)
    requires space in s.spaces && s.spaces[space].kind == Guild && forall m: (Id, Id) :: RoleFits(s, m)
    ensures (forall m: (Id, Id) :: RoleFits(RolesDeleted(AllAttempted(RowDeleted(s, space, user), ms), space, user), m))
       <==> (space, user) in s.members || (space, user) !in ms
  {
    var between := RowDeleted(s, space, user);
    assert RoleFits(s, (space, user));
    if (space, user) in s.members {
      forall m: (Id, Id) | m != (space, user)
        ensures RoleFits(between, m)
      {
        assert RoleFits(s, m);
      }
      LeftoverRoleKeepsOut(between, space, user, ms);
    } else {
      assert between == s;
      AttemptsAgree(s, space, user, ms);
      LateRoleDelete(AllAttempted(s, ms), space, user);
    }
  }

  // It happens: a user who is not a member yet calls leave and joins between
  // its statements. The second deletes the new member's role.
  lemma EarlyDepartureLosesRole(s: State, space: Id, user: Id)
    requires RowsFit(s) && space in s.spaces && s.spaces[space].kind == Guild && (space, user) !in s.members
    ensures var between := Attempted(RowDeleted(s, space, user), (space, user));
            var r := RolesDeleted(between, space, user);
            && s.spaces[space].owner != user
            && (space, user) in between.members && RoleFits(between, (space, user))
            && (space, user) in r.members && !RoleFits(r, (space, user))
  {
    assert RowDeleted(s, space, user).members == s.members;
  }

  // Nor does a leftover role row help a member against two departures at once:
  // the second clears it, the user joins again, and the first deletes the new
  // role.
  lemma SecondDepartureLosesRole(s: State, space: Id, user: Id)
    requires RowsFit(s) && space in s.spaces && s.spaces[space].kind == Guild && s.spaces[space].owner != user
    requires (space, user) in s.members
    ensures var first := RowDeleted(s, space, user);
            var second := RolesDeleted(RowDeleted(first, space, user), space, user);
            var again := Attempted(second, (space, user));
            var r := RolesDeleted(again, space, user);
            && (space, user) in again.members && RoleFits(again, (space, user))
            && (space, user) in r.members && !RoleFits(r, (space, user))
  {
  }

  // ------------------------------------------------------------------ tables

  // ForeignKey: the insert named a user who does not exist.
  datatype MemberError =
    | SpaceNotFound | AlreadyJoined | OwnerCannotLeave | NotAMember | TooManyMembers | ForeignKey
    | OwnerMustInvite | BadMaxUses

  const MAX_INITIAL_MEMBERS := 30

  // Initial group members: without the owner, each once, at most thirty.
  method NormalizeMemberIds(owner: Id, ids: seq<Id>) returns (r: Result<set<Id>, MemberError>)
    ensures var distinct := (set u | u in ids) - {owner};
            r == if |distinct| > MAX_INITIAL_MEMBERS then Err(TooManyMembers) else Ok(distinct)
  {
    var normalized := {};
    for i := 0 to |ids|
      invariant normalized == (set u | u in ids[..i]) - {owner}
    {
      assert ids[..i + 1] == ids[..i] + [ids[i]];
      if ids[i] != owner {
        normalized := normalized + {ids[i]};
      }
    }
    assert ids[..|ids|] == ids;
    if |normalized| > MAX_INITIAL_MEMBERS {
      return Err(TooManyMembers);
    }
    return Ok(normalized);
  }

  // The tables as the repositories update them, one call at a time.
  class MembershipStore {
    const users: set<Id>
    var spaces: map<Id, Space>
    var members: set<(Id, Id)>
    var defaultRoles: set<(Id, Id)>
    var invites: map<Id, Invite>
    ghost var log: seq<Event>

    ghost function View(): State
      reads this
    {
      State(spaces, members, defaultRoles, invites, map[], log)
    }

    // The foreign keys among these tables. Every method below is a step of the transition system
    // or a run of its steps, so `NextKeepsInv` and `RunKeepsInv` say the rest.
    ghost predicate Valid()
      reads this
    {
      RowsFit(View())
    }

    constructor (users: set<Id>)
      ensures Valid() && View() == NoSpaces() && this.users == users
    {
      this.users := users;
      spaces, members, defaultRoles, invites, log := map[], {}, {}, map[], [];
    }

    method CreateGuild(id: Id, owner: Id) returns (r: Result<(), MemberError>)
      requires Valid() && id !in spaces
      modifies this
      ensures Valid() && r == if owner in users then Ok(()) else Err(ForeignKey)
      ensures View() == if r.Ok? then Next(old(View()), CreateSpace(id, Guild, owner, {})) else old(View())
      ensures r.Ok? ==>
                && spaces == old(spaces)[id := Space(Guild, owner, 0)] && invites == old(invites)
                && members == old(members) + {(id, owner)} && defaultRoles == old(defaultRoles) + {(id, owner)}
    {
      if owner !in users {
        return Err(ForeignKey);
      }
      spaces := spaces[id := Space(Guild, owner, 0)];
      members := members + {(id, owner)};
      defaultRoles := defaultRoles + {(id, owner)};
      log := log + [Created(id, 1)];
      assert members == old(members) + Rows(id, {} + {owner});
      return Ok(());
    }

    // The transaction is rolled back if any of the users does not exist.
    method InsertGroup(id: Id, owner: Id, others: set<Id>) returns (r: Result<(), MemberError>)
      requires Valid() && id !in spaces && owner !in others
      modifies this
      ensures Valid() && r == if others + {owner} <= users then Ok(()) else Err(ForeignKey)
      ensures View() == if r.Ok? then Next(old(View()), CreateSpace(id, Group, owner, others)) else old(View())
      ensures r.Ok? ==>
                && spaces == old(spaces)[id := Space(Group, owner, |others|)] && invites == old(invites)
                && (forall m :: m in members <==> m in old(members) || (m.0 == id && (m.1 == owner || m.1 in others)))
                && defaultRoles == old(defaultRoles)
    {
      ghost var before := View();
      if owner !in users || !(others <= users) {
        return Err(ForeignKey);
      }
      spaces := spaces[id := Space(Group, owner, |others|)];
      members := members + {(id, owner)};
      if others != {} {
        members := members + Rows(id, others);
      }
      log := log + [Created(id, |others| + 1)];
      RowsWithOwner(before.members, id, owner, others);
      assert defaultRoles == before.defaultRoles + {};
      CreateSpaceRows(before, id, Group, owner, others);
      return Ok(());
    }

    method CreateGroup(id: Id, owner: Id, ids: seq<Id>) returns (r: Result<(), MemberError>)
      requires Valid() && id !in spaces
      modifies this
      ensures var others := (set u | u in ids) - {owner};
              && Valid()
              && (r == if |others| > MAX_INITIAL_MEMBERS then Err(TooManyMembers)
                       else if others + {owner} <= users then Ok(()) else Err(ForeignKey))
              && View() == if r.Ok? then Next(old(View()), CreateSpace(id, Group, owner, others)) else old(View())
    {
      var normalized := NormalizeMemberIds(owner, ids);
      if normalized.Err? {
        return Err(normalized.error);
      }
      r := InsertGroup(id, owner, normalized.value);
    }

    // The unique index is met before the foreign key.
    method AddMember(space: Id, user: Id) returns (r: Result<(), MemberError>)
      requires Valid()
      modifies this
      ensures Valid() && View() == if r.Ok? then Next(old(View()), AddDirectly(space, user)) else old(View())
      ensures r == if space !in spaces then Err(SpaceNotFound)
                   else if (space, user) in old(members) then Err(AlreadyJoined)
                   else if user !in users then Err(ForeignKey) else Ok(())
      ensures r.Ok? ==>
                && members == old(members) + {(space, user)} && spaces == old(spaces) && invites == old(invites)
                && defaultRoles == old(defaultRoles) + if spaces[space].kind == Guild then {(space, user)} else {}
    {
      if space !in spaces {
        return Err(SpaceNotFound);
      }
      if (space, user) in members {
        return Err(AlreadyJoined);
      }
      if user !in users {
        return Err(ForeignKey);
      }
      members := members + {(space, user)};
      if spaces[space].kind == Guild {
        defaultRoles := defaultRoles + {(space, user)};
      }
      log := log + [Added(space, user)];
      return Ok(());
    }

    // A guild's invites are made by any member, a group's by its owner.
    method CreateInvite(token: Id, space: Id, creator: Id, expiresAt: int, maxUses: Option<int>)
      returns (r: Result<(), MemberError>)
      requires Valid() && token !in invites
      modifies this
      ensures Valid() && View() == Next(old(View()), Step.CreateInvite(token, space, creator, expiresAt, maxUses))
      ensures r == if space !in spaces || (space, creator) !in members then Err(SpaceNotFound)
                   else if spaces[space].kind == Group && spaces[space].owner != creator then Err(OwnerMustInvite)
                   else if maxUses.Some? && maxUses.value <= 0 then Err(BadMaxUses) else Ok(())
      ensures invites ==
              if r.Ok? then old(invites)[token := Invite(space, expiresAt, maxUses, 0, false)] else old(invites)
    {
      if space !in spaces || (space, creator) !in members {
        return Err(SpaceNotFound);
      }
      if spaces[space].kind == Group && spaces[space].owner != creator {
        return Err(OwnerMustInvite);
      }
      if maxUses.Some? && maxUses.value <= 0 {
        return Err(BadMaxUses);
      }
      invites := invites[token := Invite(space, expiresAt, maxUses, 0, false)];
      return Ok(());
    }

    method RemoveMember(space: Id, user: Id) returns (r: Result<(), MemberError>)
      requires Valid()
      modifies this
      ensures Valid() && View() == Next(old(View()), Leave(space, user))
      ensures r == if space in spaces && spaces[space].owner == user then Err(OwnerCannotLeave)
                   else if (space, user) !in old(members) then Err(NotAMember) else Ok(())
      ensures r.Err? ==> View() == old(View())
      ensures r.Ok? ==>
                && members == old(members) - {(space, user)} && defaultRoles == old(defaultRoles) - {(space, user)}
                && spaces == old(spaces) && invites == old(invites)
    {
      if space in spaces && spaces[space].owner == user {
        return Err(OwnerCannotLeave);
      }
      var removed := (space, user) in members;
      members := members - {(space, user)};
      defaultRoles := defaultRoles - {(space, user)};
      if !removed {
        return Err(NotAMember);
      }
      log := log + [Left(space, user)];
      return Ok(());
    }

    method JoinViaInvite(token: Id, user: Id, now: int) returns (r: Result<bool, JoinError>)
      requires Valid()
      modifies this
      ensures Valid()
      ensures var (state, outcome) := JoinNow(old(View()), token, user, now);
              if outcome == Ok(true) && user !in users then View() == old(View()) && r == Err(UnknownUser)
              else View() == state && r == outcome
      ensures r == Ok(true) <==>
                && token in old(invites) && user in users
                && var row := old(invites)[token];
                && !row.revoked && now <= row.expiresAt && (row.maxUses == None || row.used < row.maxUses.value)
                && (row.space, user) !in old(members)
      ensures r == Ok(true) ==>
                var row := old(invites)[token];
                && members == old(members) + {(row.space, user)} && spaces == old(spaces)
                && invites == old(invites)[token := Invite(row.space, row.expiresAt, row.maxUses, row.used + 1, false)]
                && defaultRoles ==
                   old(defaultRoles) + if spaces[row.space].kind == Guild then {(row.space, user)} else {}
      ensures r != Ok(true) ==> View() == old(View())
    {
      JoinOutcomes(View(), token, user, now);
      if token !in invites || invites[token].revoked {
        return Err(InviteNotFound);
      }
      var row := invites[token];
      var inGuild := spaces[row.space].kind == Guild;
      if inGuild && (row.space, user) in members {
        return Ok(false);
      }
      if row.expiresAt < now {
        return Err(InviteExpired);
      }
      if row.maxUses.Some? && row.used >= row.maxUses.value {
        return Err(UsageLimitExceeded);
      }
      if (row.space, user) in members {
        return Ok(false);
      }
      if user !in users {
        return Err(UnknownUser);
      }
      members := members + {(row.space, user)};
      if inGuild {
        defaultRoles := defaultRoles + {(row.space, user)};
      }
      invites := invites[token := row.(used := row.used + 1)];
      log := log + [Joined(token, row.space, user, now, row)];
      assert defaultRoles == Admitted(old(View()), row.space, user).defaultRoles;
      return Ok(true);
    }
  }
}
