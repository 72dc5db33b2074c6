/**
 Refresh-token sessions.

 A login starts a chain of sessions. A refresh revokes the session of the token
 it is given and inserts the next one of the chain, in one transaction of two
 statements; in between it holds the lock of the row it updated. Hashes are
 kept unique by the table.
 */
module Sessions {
  import opened Base

  datatype Session = Session(user: Id, expiresAt: int, revokedAt: Option<int>)

  // An open rotation: it has revoked `given` as of its start, not yet visibly
  // to others.
  datatype Rotation = Rotation(given: Id, at: int)

  // `chains` and `chainOf` record which login each session descends from.
  datatype State = State(
    sessions: map<Id, Session>,
    rotations: map<Id, Rotation>,
    chains: seq<seq<Id>>,
    chainOf: map<Id, nat>)

  function NoSessions(): State {
    State(map[], map[], [], map[])
  }

  datatype Step =
    | Login(user: Id, hash: Id, expiresAt: int)
    | BeginRefresh(tx: Id, given: Id, now: int)
    | FinishRefresh(tx: Id, issued: Id, expiresAt: int)
    | AbortRefresh(tx: Id)
    | Logout(hash: Id, now: int)

  predicate Locked(s: State, hash: Id) {
    exists x :: x in s.rotations && s.rotations[x].given == hash
  }

  // A live session: the row the revoking UPDATE would match.
  predicate Usable(s: State, hash: Id, now: int) {
    hash in s.sessions && s.sessions[hash].revokedAt.None? && s.sessions[hash].expiresAt > now
  }

  // Writers of a locked row wait, so they are not enabled.
  predicate Enabled(s: State, step: Step) {
    match step
    case Login(_, _, _) => true
    case BeginRefresh(x, given, _) => x !in s.rotations && !Locked(s, given)
    case FinishRefresh(x, _, _) => x in s.rotations
    case AbortRefresh(x) => x in s.rotations
    case Logout(hash, _) => !Locked(s, hash)
  }

  // Whether the step commits a rotation of `hash`.
  predicate Rotates(s: State, step: Step, hash: Id) {
    step.FinishRefresh? && step.tx in s.rotations && s.rotations[step.tx].given == hash && step.issued !in s.sessions
  }

  // Every session has a chain and every rotation a session.
  ghost predicate Indexed(s: State) {
    && s.chainOf.Keys == s.sessions.Keys
    && (forall h :: h in s.chainOf ==> s.chainOf[h] < |s.chains|)
    && (forall x :: x in s.rotations ==> s.rotations[x].given in s.sessions)
  }

  // Revoking a row that no rotation holds.
  function Revoked(s: State, hash: Id, now: int): State
    requires hash in s.sessions
  {
    s.(sessions := s.sessions[hash := s.sessions[hash].(revokedAt := Some(now))])
  }

  ghost function Next(s: State, step: Step): State
    requires Indexed(s) && Enabled(s, step)
  {
    match step
    case Login(user, hash, expiresAt) =>
      if hash in s.sessions then s
      else s.(sessions := s.sessions[hash := Session(user, expiresAt, None)],
              chains := s.chains + [[hash]],
              chainOf := s.chainOf[hash := |s.chains|])
    case BeginRefresh(x, given, now) =>
      if Usable(s, given, now) then s.(rotations := s.rotations[x := Rotation(given, now)]) else s
    case FinishRefresh(x, issued, expiresAt) =>
      var closed := s.(rotations := s.rotations - {x});
      var given := s.rotations[x].given;
      if issued in s.sessions then closed
      else
        var row := s.sessions[given];
        var c := s.chainOf[given];
        var revoked := s.sessions[given := row.(revokedAt := Some(s.rotations[x].at))];
        closed.(sessions := revoked[issued := Session(row.user, expiresAt, None)],
                chains := s.chains[c := s.chains[c] + [issued]],
                chainOf := s.chainOf[issued := c])
    case AbortRefresh(x) => s.(rotations := s.rotations - {x})
    case Logout(hash, now) =>
      if hash in s.sessions && s.sessions[hash].revokedAt.None? then Revoked(s, hash, now) else s
  }

  // --------------------------------------------------------------- invariant

  // Every session lies in exactly one chain, at exactly one place.
  ghost predicate Traced(s: State) {
    && Indexed(s)
    && (forall h :: h in s.sessions ==> h in s.chains[s.chainOf[h]])
    && (forall c, i :: 0 <= c < |s.chains| && 0 <= i < |s.chains[c]| ==>
          s.chains[c][i] in s.sessions && s.chainOf[s.chains[c][i]] == c)
    && (forall c, i, j :: 0 <= c < |s.chains| && 0 <= i < j < |s.chains[c]| ==> s.chains[c][i] != s.chains[c][j])
  }

  // A chain belongs to one user and is revoked up to its last session.
  ghost predicate ChainsRevoked(s: State)
    requires Traced(s)
  {
    && (forall c, i, j :: 0 <= c < |s.chains| && 0 <= i < j < |s.chains[c]| ==>
          s.sessions[s.chains[c][i]].user == s.sessions[s.chains[c][j]].user)
    && (forall c, i :: 0 <= c < |s.chains| && 0 <= i < |s.chains[c]| - 1 ==>
          s.sessions[s.chains[c][i]].revokedAt.Some?)
  }

  // A row under rotation is live and under no other rotation, and had not
  // expired when the rotation began.
  ghost predicate RotationsExclusive(s: State)
    requires Traced(s)
  {
    && (forall x :: x in s.rotations ==>
          && s.sessions[s.rotations[x].given].revokedAt.None?
          && s.sessions[s.rotations[x].given].expiresAt > s.rotations[x].at)
    && (forall x, y :: x in s.rotations && y in s.rotations && s.rotations[x].given == s.rotations[y].given ==> x == y)
  }

  ghost predicate Inv(s: State) {
    Traced(s) && ChainsRevoked(s) && RotationsExclusive(s)
  }

  lemma RevokedKeepsTraced(s: State, hash: Id, now: int)
    requires Traced(s) && hash in s.sessions
    ensures Traced(Revoked(s, hash, now))
  {
    assert Revoked(s, hash, now).sessions.Keys == s.sessions.Keys;
  }

  lemma RevokedKeeps(s: State, hash: Id, now: int)
    requires Inv(s) && hash in s.sessions && !Locked(s, hash)
    ensures Inv(Revoked(s, hash, now))
  {
    RevokedKeepsTraced(s, hash, now);
    var t := Revoked(s, hash, now);
    forall h | h in s.sessions
      ensures t.sessions[h].user == s.sessions[h].user
      ensures s.sessions[h].revokedAt.Some? ==> t.sessions[h].revokedAt.Some?
    {
    }
    forall x | x in s.rotations
      ensures t.sessions[s.rotations[x].given] == s.sessions[s.rotations[x].given]
    {
      assert s.rotations[x].given != hash;
    }
  }

  lemma LogoutKeeps(s: State, step: Step)
    requires Inv(s) && Enabled(s, step) && step.Logout?
    ensures Inv(Next(s, step))
  {
    if step.hash in s.sessions && s.sessions[step.hash].revokedAt.None? {
      RevokedKeeps(s, step.hash, step.now);
    }
  }

  lemma LoginKeepsTraced(s: State, step: Step)
    requires Traced(s) && Enabled(s, step) && step.Login?
    ensures Traced(Next(s, step))
  {
  }

  lemma LoginKeepsRevoked(s: State, step: Step)
    requires Traced(s) && ChainsRevoked(s) && Enabled(s, step) && step.Login?
    ensures Traced(Next(s, step)) && ChainsRevoked(Next(s, step))
  {
    LoginKeepsTraced(s, step);
    var t := Next(s, step);
    assert forall c :: 0 <= c < |t.chains| ==>
        (c < |s.chains| && t.chains[c] == s.chains[c]) || |t.chains[c]| == 1 || t == s;
  }

  lemma LoginKeeps(s: State, step: Step)
    requires Inv(s) && Enabled(s, step) && step.Login?
    ensures Inv(Next(s, step))
  {
    LoginKeepsTraced(s, step);
    LoginKeepsRevoked(s, step);
  }

  // A live session is the last of its chain.
  lemma LiveIsLast(s: State, h: Id)
    requires Traced(s) && ChainsRevoked(s) && h in s.sessions && s.sessions[h].revokedAt.None?
    ensures var chain := s.chains[s.chainOf[h]]; chain != [] && chain[|chain| - 1] == h
  {
    var chain := s.chains[s.chainOf[h]];
    var i :| 0 <= i < |chain| && chain[i] == h;
  }

  lemma FinishKeepsTraced(s: State, step: Step)
    requires Traced(s) && Enabled(s, step) && step.FinishRefresh?
    ensures Traced(Next(s, step))
  {
    var t := Next(s, step);
    forall h | h in t.sessions
      ensures h in t.chains[t.chainOf[h]]
    {
      if h in s.sessions {
        assert h in s.chains[s.chainOf[h]];
      }
    }
  }

  lemma FinishKeepsRevoked(s: State, step: Step)
    requires Inv(s) && Enabled(s, step) && step.FinishRefresh?
    ensures Traced(Next(s, step)) && ChainsRevoked(Next(s, step))
  {
    FinishKeepsTraced(s, step);
    var given := s.rotations[step.tx].given;
    LiveIsLast(s, given);
    var t := Next(s, step);
    var c0 := s.chainOf[given];
    forall c, i | 0 <= c < |t.chains| && 0 <= i < |t.chains[c]| - 1
      ensures t.sessions[t.chains[c][i]].revokedAt.Some?
    {
      assert t.chains[c][i] == s.chains[c][i];
    }
    forall c, i, j | 0 <= c < |t.chains| && 0 <= i < j < |t.chains[c]|
      ensures t.sessions[t.chains[c][i]].user == t.sessions[t.chains[c][j]].user
    {
      assert t.chains[c][i] == s.chains[c][i];
      assert j < |s.chains[c]| ==> t.chains[c][j] == s.chains[c][j];
      assert j == |s.chains[c]| ==> c == c0 && t.chains[c][j] == step.issued;
    }
  }

  lemma FinishKeepsExclusive(s: State, step: Step)
    requires Inv(s) && Enabled(s, step) && step.FinishRefresh?
    ensures Traced(Next(s, step)) && RotationsExclusive(Next(s, step))
  {
    FinishKeepsTraced(s, step);
    var t := Next(s, step);
    forall x | x in t.rotations
      ensures t.rotations[x] == s.rotations[x] && t.sessions[t.rotations[x].given] == s.sessions[s.rotations[x].given]
    {
      assert s.rotations[x].given in s.sessions && s.rotations[x].given != s.rotations[step.tx].given;
    }
  }

  lemma FinishKeeps(s: State, step: Step)
    requires Inv(s) && Enabled(s, step) && step.FinishRefresh?
    ensures Inv(Next(s, step))
  {
    FinishKeepsRevoked(s, step);
    FinishKeepsExclusive(s, step);
  }

  lemma NextKeepsInv(s: State, step: Step)
    requires Inv(s) && Enabled(s, step)
    ensures Inv(Next(s, step))
  {
    match step
    case Login(_, _, _) => LoginKeeps(s, step);
    case FinishRefresh(_, _, _) => FinishKeeps(s, step);
    case Logout(_, _) => LogoutKeeps(s, step);
    case _ =>
  }

  // -------------------------------------------------------------------- runs

  ghost predicate Feasible(s: State, steps: seq<Step>)
    requires Inv(s)
    decreases |steps|
  {
    steps == [] || (Enabled(s, steps[0]) && (NextKeepsInv(s, steps[0]); Feasible(Next(s, steps[0]), steps[1..])))
  }

  ghost function Run(s: State, steps: seq<Step>): State
    requires Inv(s) && Feasible(s, steps)
    decreases |steps|
  {
    if steps == [] then s
    else NextKeepsInv(s, steps[0]); Run(Next(s, steps[0]), steps[1..])
  }

  lemma {:induction false} RunKeepsInv(s: State, steps: seq<Step>)
    requires Inv(s) && Feasible(s, steps)
    ensures Inv(Run(s, steps))
    decreases |steps|
  {
    if steps == [] {
    } else {
      NextKeepsInv(s, steps[0]);
      RunKeepsInv(Next(s, steps[0]), steps[1..]);
    }
  }

  // CHAINS. After any interleaving of logins, refreshes and logouts, the
  // sessions that descend from one login are one user's, each hash occurs in
  // one chain only, and all but the last are revoked.
  lemma ChainsOfOneLogin(steps: seq<Step>, c: nat, i: nat, j: nat)
    requires Feasible(NoSessions(), steps)
    requires c < |Run(NoSessions(), steps).chains| && i < j < |Run(NoSessions(), steps).chains[c]|
    ensures var s := Run(NoSessions(), steps);
            var earlier, later := s.chains[c][i], s.chains[c][j];
            && earlier in s.sessions && later in s.sessions && earlier != later
            && s.sessions[earlier].user == s.sessions[later].user
            && s.sessions[earlier].revokedAt.Some?
            && earlier in s.chainOf && later in s.chainOf && s.chainOf[earlier] == s.chainOf[later] == c
  {
    RunKeepsInv(NoSessions(), steps);
  }

  // How many refreshes given `hash` succeed in a run.
  ghost function Successes(s: State, steps: seq<Step>, hash: Id): nat
    requires Inv(s) && Feasible(s, steps)
    decreases |steps|
  {
    if steps == [] then 0
    else
      NextKeepsInv(s, steps[0]);
      (if Rotates(s, steps[0], hash) then 1 else 0) + Successes(Next(s, steps[0]), steps[1..], hash)
  }

  ghost predicate Spent(s: State, hash: Id) {
    hash in s.sessions && s.sessions[hash].revokedAt.Some?
  }

  lemma NextKeepsSpent(s: State, step: Step, hash: Id)
    requires Inv(s) && Enabled(s, step) && Spent(s, hash)
    ensures Spent(Next(s, step), hash) && !Rotates(s, step, hash)
  {
  }

  // SPENT MEANS SPENT. A rotated or logged-out token never succeeds again.
  lemma {:induction false} SpentNeverSucceeds(s: State, steps: seq<Step>, hash: Id)
    requires Inv(s) && Feasible(s, steps) && Spent(s, hash)
    ensures Successes(s, steps, hash) == 0 && Spent(Run(s, steps), hash)
    decreases |steps|
  {
    if steps == [] {
    } else {
      NextKeepsInv(s, steps[0]);
      NextKeepsSpent(s, steps[0], hash);
      SpentNeverSucceeds(Next(s, steps[0]), steps[1..], hash);
    }
  }

  // ----------------------------------------------------------------- logout

  ghost predicate ChainSpent(s: State, c: nat) {
    c < |s.chains| && forall i :: 0 <= i < |s.chains[c]| ==> Spent(s, s.chains[c][i])
  }

  // A rotation is given a live token, so it extends no spent chain.
  lemma NextKeepsSpentChain(s: State, step: Step, c: nat)
    requires Inv(s) && Enabled(s, step) && ChainSpent(s, c)
    ensures c < |Next(s, step).chains| && Next(s, step).chains[c] == s.chains[c]
  {
    if step.FinishRefresh? {
      var given := s.rotations[step.tx].given;
      LiveIsLast(s, given);
      assert s.chainOf[given] != c;
    }
  }

  lemma NextKeepsChainSpent(s: State, step: Step, c: nat)
    requires Inv(s) && Enabled(s, step) && ChainSpent(s, c)
    ensures ChainSpent(Next(s, step), c) && Next(s, step).chains[c] == s.chains[c]
  {
    NextKeepsSpentChain(s, step, c);
    forall i | 0 <= i < |s.chains[c]|
      ensures Spent(Next(s, step), s.chains[c][i])
    {
      NextKeepsSpent(s, step, s.chains[c][i]);
    }
  }

  // OVER MEANS OVER. A chain whose sessions are all spent is never extended, so
  // its login never has a live session again.
  lemma {:induction false} SpentChainIsFinal(s: State, steps: seq<Step>, c: nat)
    requires Inv(s) && Feasible(s, steps) && ChainSpent(s, c)
    ensures ChainSpent(Run(s, steps), c) && Run(s, steps).chains[c] == s.chains[c]
    decreases |steps|
  {
    if steps == [] {
    } else {
      NextKeepsInv(s, steps[0]);
      NextKeepsChainSpent(s, steps[0], c);
      SpentChainIsFinal(Next(s, steps[0]), steps[1..], c);
    }
  }

  // A logout ends the chain of its token exactly if the token is the chain's
  // last, or the chain was over already: with a rotated token it does nothing.
  lemma LogoutEndsChain(s: State, hash: Id, now: int)
    requires Inv(s) && Enabled(s, Logout(hash, now)) && hash in s.sessions
    ensures var c := s.chainOf[hash];
            && s.chains[c] != []
            && (ChainSpent(Next(s, Logout(hash, now)), c) <==>
                  s.chains[c][|s.chains[c]| - 1] == hash || ChainSpent(s, c))
  {
    var c := s.chainOf[hash];
    var chain := s.chains[c];
    var t := Next(s, Logout(hash, now));
    assert t.chains == s.chains;
    var last := |chain| - 1;
    assert ChainSpent(s, c) <==> Spent(s, chain[last]);
    assert ChainSpent(t, c) <==> Spent(t, chain[last]);
    if chain[last] != hash {
      var i :| 0 <= i < last && chain[i] == hash;
    }
  }

  lemma RotationSpends(s: State, step: Step, hash: Id)
    requires Inv(s) && Enabled(s, step) && Rotates(s, step, hash)
    ensures Spent(Next(s, step), hash)
  {
  }

  // ONE WINNER. However many refreshes of one token overlap, at most one of
  // them succeeds.
  lemma {:induction false} RefreshSucceedsAtMostOnce(s: State, steps: seq<Step>, hash: Id)
    requires Inv(s) && Feasible(s, steps)
    ensures Successes(s, steps, hash) <= 1
    decreases |steps|
  {
    if steps == [] {
    } else {
      NextKeepsInv(s, steps[0]);
      if Rotates(s, steps[0], hash) {
        RotationSpends(s, steps[0], hash);
        SpentNeverSucceeds(Next(s, steps[0]), steps[1..], hash);
      } else {
        RefreshSucceedsAtMostOnce(Next(s, steps[0]), steps[1..], hash);
      }
    }
  }

  // Between s and t the token `hash` was live and is replaced by `issued` at
  // the end of its chain.
  ghost predicate HandsOver(s: State, t: State, hash: Id, issued: Id, at: int, expiresAt: int) {
    && Usable(s, hash, at) && hash in s.chainOf && s.chainOf[hash] < |s.chains|
    && issued !in s.sessions && issued in t.sessions
    && t.sessions[issued] == Session(s.sessions[hash].user, expiresAt, None)
    && var c := s.chainOf[hash];
    && s.chains[c] != [] && s.chains[c][|s.chains[c]| - 1] == hash
    && t.chains == s.chains[c := s.chains[c] + [issued]]
  }

  lemma FinishHandsOver(s: State, step: Step, hash: Id)
    requires Inv(s) && Enabled(s, step) && Rotates(s, step, hash)
    ensures HandsOver(s, Next(s, step), hash, step.issued, s.rotations[step.tx].at, step.expiresAt)
  {
    LiveIsLast(s, hash);
  }

  // A WINNER WAS LIVE. A refresh that succeeds after any run was given a token
  // neither revoked nor, when it began, expired; its user gets a live session
  // that is now the last of the same chain.
  lemma SuccessHandsOver(steps: seq<Step>, step: Step, hash: Id)
    requires Feasible(NoSessions(), steps)
    requires Enabled(Run(NoSessions(), steps), step) && Rotates(Run(NoSessions(), steps), step, hash)
    ensures var s := Run(NoSessions(), steps);
            && Traced(s) && step.tx in s.rotations
            && HandsOver(s, Next(s, step), hash, step.issued, s.rotations[step.tx].at, step.expiresAt)
  {
    RunKeepsInv(NoSessions(), steps);
    FinishHandsOver(Run(NoSessions(), steps), step, hash);
  }

  // A LOGIN WORKS. With a hash not yet in the table it starts a chain of its
  // own, of one session of the user who logged in, usable until it expires.
  lemma LoginStartsChain(s: State, user: Id, hash: Id, expiresAt: int, now: int)
    requires Inv(s) && hash !in s.sessions
    ensures var t := Next(s, Login(user, hash, expiresAt));
            && hash in t.sessions && t.sessions[hash] == Session(user, expiresAt, None)
            && t.chains == s.chains + [[hash]] && hash in t.chainOf && t.chainOf[hash] == |s.chains|
            && (forall h :: h in s.sessions ==> h in t.sessions && t.sessions[h] == s.sessions[h])
            && (Usable(t, hash, now) <==> now < expiresAt)
  {
  }

  // A LIVE TOKEN WORKS. Given a token that is live, not under rotation, and a
  // fresh hash, a refresh succeeds and the fresh token is live in its place.
  lemma LiveTokenRefreshes(s: State, x: Id, given: Id, now: int, issued: Id, expiresAt: int)
    requires Inv(s) && x !in s.rotations && !Locked(s, given) && issued !in s.sessions
    requires given in s.sessions && s.sessions[given].revokedAt == None && now < s.sessions[given].expiresAt
    ensures var begin, finish := BeginRefresh(x, given, now), FinishRefresh(x, issued, expiresAt);
            && Enabled(s, begin) && Inv(Next(s, begin)) && Enabled(Next(s, begin), finish)
            && Rotates(Next(s, begin), finish, given)
            && var t := Next(Next(s, begin), finish);
            && Spent(t, given) && issued in t.sessions && t.rotations == s.rotations
            && t.sessions[issued] == Session(s.sessions[given].user, expiresAt, None)
  {
    NextKeepsInv(s, BeginRefresh(x, given, now));
    assert Next(s, BeginRefresh(x, given, now)).rotations[x] == Rotation(given, now);
    assert s.rotations[x := Rotation(given, now)] - {x} == s.rotations;
  }

  // A FAILED REFRESH IS VOID. Aborted, or refused for a hash that exists, it
  // leaves everything as it was, the given token included.
  lemma FailedRefreshIsVoid(s: State, x: Id, given: Id, now: int, issued: Id, expiresAt: int)
    requires Inv(s) && x !in s.rotations && !Locked(s, given) && Usable(s, given, now)
    ensures var begin := BeginRefresh(x, given, now);
            && Enabled(s, begin) && Inv(Next(s, begin)) && Enabled(Next(s, begin), AbortRefresh(x))
            && Next(Next(s, begin), AbortRefresh(x)) == s
            && (issued in s.sessions ==> Next(Next(s, begin), FinishRefresh(x, issued, expiresAt)) == s)
  {
    NextKeepsInv(s, BeginRefresh(x, given, now));
    assert s.rotations[x := Rotation(given, now)] - {x} == s.rotations;
  }

  // ------------------------------------------------------------------- table

  datatype AuthError = DuplicateHash | InvalidRefreshToken

  class SessionStore {
    var sessions: map<Id, Session>
    ghost var chains: seq<seq<Id>>
    ghost var chainOf: map<Id, nat>

    ghost function View(): State
      reads this
    {
      State(sessions, map[], chains, chainOf)
    }

    ghost predicate Valid()
      reads this
    {
      Inv(View())
    }

    constructor ()
      ensures Valid() && View() == NoSessions()
    {
      sessions, chains, chainOf := map[], [], map[];
    }

    method CreateSession(user: Id, hash: Id, expiresAt: int) returns (r: Result<(), AuthError>)
      requires Valid()
      modifies this
      ensures View() == Next(old(View()), Login(user, hash, expiresAt))
      ensures Valid()
      ensures r == if hash in old(sessions) then Err(DuplicateHash) else Ok(())
      ensures sessions == if r.Ok? then old(sessions)[hash := Session(user, expiresAt, None)] else old(sessions)
    {
      NextKeepsInv(View(), Login(user, hash, expiresAt));
      if hash in sessions {
        return Err(DuplicateHash);
      }
      sessions := sessions[hash := Session(user, expiresAt, None)];
      chainOf := chainOf[hash := |chains|];
      chains := chains + [[hash]];
      return Ok(());
    }

    // Both statements of the rotation with nothing in between.
    method RotateRefreshSession(given: Id, issued: Id, now: int, expiresAt: int) returns (r: Result<Id, AuthError>)
      requires Valid()
      modifies this
      ensures r.Ok? <==>
                && given in old(sessions) && old(sessions[given]).revokedAt == None
                && now < old(sessions[given]).expiresAt && issued !in old(sessions)
      ensures r.Err? ==> r.error == if issued in old(sessions) && Usable(old(View()), given, now)
                                    then DuplicateHash else InvalidRefreshToken
      ensures r.Ok? ==>
                var row := old(sessions[given]);
                && r.value == row.user
                && sessions == old(sessions)[given := Session(row.user, row.expiresAt, Some(now))]
                                            [issued := Session(row.user, expiresAt, None)]
      ensures r.Err? ==> View() == old(View())
      ensures r.Ok? ==>
                && r.value == old(sessions[given]).user
                && var begun := old(View()).(rotations := map[0 := Rotation(given, now)]);
                && Next(old(View()), BeginRefresh(0, given, now)) == begun
                && View() == Next(begun, FinishRefresh(0, issued, expiresAt))
      ensures Valid()
    {
      ghost var begun := View().(rotations := map[0 := Rotation(given, now)]);
      if given !in sessions || sessions[given].revokedAt.Some? || sessions[given].expiresAt <= now {
        return Err(InvalidRefreshToken);
      }
      NextKeepsInv(View(), BeginRefresh(0, given, now));
      NextKeepsInv(begun, FinishRefresh(0, issued, expiresAt));
      var user := sessions[given].user;
      if issued in sessions {
        return Err(DuplicateHash);
      }
      sessions := sessions[given := sessions[given].(revokedAt := Some(now))];
      sessions := sessions[issued := Session(user, expiresAt, None)];
      chains := chains[chainOf[given] := chains[chainOf[given]] + [issued]];
      chainOf := chainOf[issued := chainOf[given]];
      return Ok(user);
    }

    method RevokeByRefreshHash(hash: Id, now: int)
      requires Valid()
      modifies this
      ensures sessions == if hash in old(sessions) && old(sessions[hash]).revokedAt == None
                          then old(sessions)[hash := old(sessions[hash]).(revokedAt := Some(now))] else old(sessions)
      ensures View() == Next(old(View()), Logout(hash, now))
      ensures hash in sessions ==> Spent(View(), hash)
      ensures Valid()
    {
      if hash in sessions && sessions[hash].revokedAt.None? {
        RevokedKeeps(View(), hash, now);
        sessions := sessions[hash := sessions[hash].(revokedAt := Some(now))];
      }
    }
  }
}
