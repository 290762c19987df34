/**
 * Lobby rows and member rows, and who owns a lobby. A member who leaves keeps
 * an inactive row, role included, and gets it back on rejoining.
 */
module Lobbies {
  import opened Common
  import opened SortedSets

  const MAX_MEMBERS := 8
  const ATTEMPTS := 5
  const DEFAULT_TTL := 7_200_000_000_000

  datatype LobbyState = Open | InMatch | Started | Closed | Expired
  datatype Role = Owner | Member
  datatype MemberRow = MemberRow(role: Role, joinedAt: int, active: bool)
  datatype LobbyRow = LobbyRow(
    code: string, mode: string, owner: UserId, state: LobbyState, expiresAt: int,
    activeMatch: Option<string>, startedMatch: Option<string>, lastMatch: Option<string>,
    members: map<UserId, MemberRow>)

  datatype LobbyError = OwnerRequired | UnsupportedMode | NoCode | NoRows | NotOpen | PastExpiry | Full | Forbidden | InvalidMember

  type Table = map<string, LobbyRow>

  function ActiveBut(row: LobbyRow, user: UserId): set<UserId> {
    set u | u in row.members && row.members[u].active && u != user
  }

  function Active(row: LobbyRow): set<UserId> {
    set u | u in row.members && row.members[u].active
  }

  predicate IsActive(row: LobbyRow, u: UserId) {
    u in row.members && row.members[u].active
  }

  // ----- what each operation does to a row ---------------------------------------

  function Created(code: string, mode: string, owner: UserId, expiresAt: int, now: int): LobbyRow {
    LobbyRow(code, mode, owner, Open, expiresAt, None, None, None, map[owner := MemberRow(Owner, now, true)])
  }

  /** A new row, or the old one reactivated; a former owner's row keeps its role. */
  function JoinedRow(row: LobbyRow, user: UserId, now: int): MemberRow {
    var role := if row.owner == user then Owner else Member;
    if user in row.members then
      var was := row.members[user];
      MemberRow(if was.role == Owner then Owner else role, if was.active then was.joinedAt else now, true)
    else
      MemberRow(role, now, true)
  }

  function Joined(row: LobbyRow, user: UserId, now: int): LobbyRow {
    row.(members := row.members[user := JoinedRow(row, user, now)])
  }

  function Gone(row: LobbyRow, user: UserId): LobbyRow
    requires user in row.members
  {
    row.(members := row.members[user := row.members[user].(active := false)])
  }

  /** Ownership moves, and with it every active member's role. */
  function Handed(row: LobbyRow, taker: UserId): LobbyRow {
    row.(owner := taker,
         members := map u | u in row.members ::
           if row.members[u].active then row.members[u].(role := if u == taker then Owner else Member) else row.members[u])
  }

  /** Who takes over: an active member who joined no later than any other. */
  ghost predicate IsHeir(row: LobbyRow, heir: Option<UserId>) {
    match heir
    case None => Active(row) == {}
    case Some(h) => IsActive(row, h) && forall u | u in Active(row) :: row.members[h].joinedAt <= row.members[u].joinedAt
  }

  function Left(row: LobbyRow, user: UserId, heir: Option<UserId>): LobbyRow
    requires user in row.members
  {
    var gone := Gone(row, user);
    if row.owner != user then gone
    else if heir.None? then gone.(state := Closed)
    else Handed(gone, heir.value)
  }

  predicate Kickable(row: LobbyRow, target: UserId) {
    IsActive(row, target) && row.members[target].role != Owner
  }

  function Begun(row: LobbyRow, matchId: string): LobbyRow {
    row.(state := InMatch, activeMatch := Some(matchId), startedMatch := Some(matchId))
  }

  predicate InEndedMatch(row: LobbyRow, ended: set<string>) {
    (row.state == InMatch || row.state == Started) && row.activeMatch.Some? && row.activeMatch.value in ended
  }

  function Reopened(row: LobbyRow): LobbyRow {
    row.(state := Open, lastMatch := row.activeMatch, activeMatch := None, startedMatch := None)
  }

  // ----- operations on the table -------------------------------------------------

  /** Kick is only its second step: its owner check may be out of date by then. */
  datatype Op =
    | Create(id: string, row: LobbyRow)
    | Join(id: string, user: UserId, now: int)
    | Leave(id: string, user: UserId, heir: Option<UserId>)
    | Remove(id: string, target: UserId)
    | Transfer(id: string, giver: UserId, taker: UserId)
    | Begin(id: string, matchId: string)
    | Reopen(ended: set<string>)
    | Expire(now: int)
    | SetMode(id: string, mode: string)

  function JoinError(t: Table, id: string, user: UserId, now: int): Option<LobbyError> {
    if id !in t then Some(NoRows)
    else if t[id].state != Open then Some(NotOpen)
    else if now > t[id].expiresAt then Some(PastExpiry)
    else if |ActiveBut(t[id], user)| >= MAX_MEMBERS then Some(Full)
    else None
  }

  function LeaveError(t: Table, id: string, user: UserId): Option<LobbyError> {
    if id !in t then Some(NoRows)
    else if t[id].state != Open then Some(NotOpen)
    else if !IsActive(t[id], user) then Some(NoRows)
    else None
  }

  function OwnerError(t: Table, id: string, user: UserId): Option<LobbyError> {
    if id !in t then Some(NoRows)
    else if t[id].state != Open then Some(NotOpen)
    else if t[id].owner != user then Some(Forbidden)
    else None
  }

  function TransferError(t: Table, id: string, giver: UserId, taker: UserId): Option<LobbyError> {
    if OwnerError(t, id, giver).Some? then OwnerError(t, id, giver)
    else if giver == taker then Some(InvalidMember)
    else if !IsActive(t[id], taker) then Some(NoRows)
    else None
  }

  /** The table after an operation; one that is refused changes nothing, but for a lobby found past its expiry. */
  function After(t: Table, op: Op): Table {
    match op
    case Create(id, row) => if id in t then t else t[id := row]
    case Join(id, user, now) =>
      (match JoinError(t, id, user, now)
       case None => t[id := Joined(t[id], user, now)]
       case Some(PastExpiry) => t[id := t[id].(state := Expired)]
       case Some(_) => t)
    case Leave(id, user, heir) => if LeaveError(t, id, user).Some? then t else t[id := Left(t[id], user, heir)]
    case Remove(id, target) => if id in t && Kickable(t[id], target) then t[id := Gone(t[id], target)] else t
    case Transfer(id, giver, taker) => if TransferError(t, id, giver, taker).Some? then t else t[id := Handed(t[id], taker)]
    case Begin(id, matchId) => if id in t && t[id].state == Open then t[id := Begun(t[id], matchId)] else t
    case Reopen(ended) => map id | id in t :: if InEndedMatch(t[id], ended) then Reopened(t[id]) else t[id]
    case SetMode(id, mode) => if id != "" && id in t && t[id].state == Open && IsPartyMode(mode) then t[id := t[id].(mode := mode)] else t
    case Expire(now) => map id | id in t :: if t[id].state == Open && t[id].expiresAt < now then t[id].(state := Expired) else t[id]
  }

  const DUEL := "duel"

  predicate IsPartyMode(mode: string) {
    mode == DUEL || mode == "team_duel" || mode == "free_for_all"
  }

  /** No mode asked for means a duel. */
  function ModeOr(mode: string): string {
    if mode == "" then DUEL else mode
  }

  predicate CodeFree(t: Table, code: string) {
    forall id <- t :: t[id].code != code
  }

  /** An id and a code that no row has. */
  predicate Free(t: Table, pair: (string, string)) {
    pair.0 !in t && CodeFree(t, pair.1)
  }

  /** What the database hands an operation: a fresh code, and the right heir. */
  ghost predicate Enabled(t: Table, op: Op) {
    match op
    case Create(id, row) => CodeFree(t, row.code) && IsPartyMode(row.mode) && exists owner, expiresAt, now :: row == Created(row.code, row.mode, owner, expiresAt, now)
    case Leave(id, user, heir) => LeaveError(t, id, user).None? && t[id].owner == user ==> IsHeir(Gone(t[id], user), heir)
    case _ => true
  }

  // ----- the invariant -----------------------------------------------------------

  predicate IsLive(s: LobbyState) {
    s == Open || s == InMatch || s == Started
  }

  /** A live lobby's owner is an active member with the owner's role, one of at most eight. */
  ghost predicate Owned(row: LobbyRow) {
    IsLive(row.state) ==>
      && IsActive(row, row.owner) && row.members[row.owner].role == Owner
      && |Active(row)| <= MAX_MEMBERS
  }

  ghost predicate RowSound(row: LobbyRow) {
    Owned(row) && IsPartyMode(row.mode)
  }

  ghost predicate Sound(t: Table) {
    && (forall id <- t :: RowSound(t[id]))
    && forall i <- t, j <- t | i != j :: t[i].code != t[j].code
  }

  lemma SmallerActive(row: LobbyRow, r: LobbyRow)
    requires Active(r) <= Active(row)
    ensures |Active(r)| <= |Active(row)|
  {
    var rest := Active(row) - Active(r);
    assert Active(row) == Active(r) + rest;
  }

  lemma CreatedOwned(code: string, mode: string, owner: UserId, expiresAt: int, now: int)
    ensures Owned(Created(code, mode, owner, expiresAt, now))
  {
    assert Active(Created(code, mode, owner, expiresAt, now)) == {owner};
  }

  lemma JoinedOwned(row: LobbyRow, user: UserId, now: int)
    requires Owned(row) && row.state == Open && |ActiveBut(row, user)| < MAX_MEMBERS
    ensures Owned(Joined(row, user, now))
  {
    assert Active(Joined(row, user, now)) == ActiveBut(row, user) + {user};
  }

  lemma GoneOwned(row: LobbyRow, user: UserId)
    requires Owned(row) && user in row.members && user != row.owner
    ensures Owned(Gone(row, user))
  {
    SmallerActive(row, Gone(row, user));
  }

  lemma HandedOwned(row: LobbyRow, taker: UserId)
    requires IsActive(row, taker) && |Active(row)| <= MAX_MEMBERS
    ensures Owned(Handed(row, taker)) && Active(Handed(row, taker)) == Active(row)
  {
    assert Active(Handed(row, taker)) == Active(row);
  }

  lemma LeftOwned(row: LobbyRow, user: UserId, heir: Option<UserId>)
    requires Owned(row) && row.state == Open && IsActive(row, user)
    requires row.owner == user ==> IsHeir(Gone(row, user), heir)
    ensures Owned(Left(row, user, heir))
  {
    if row.owner != user {
      GoneOwned(row, user);
    } else if heir.Some? {
      SmallerActive(row, Gone(row, user));
      HandedOwned(Gone(row, user), heir.value);
    }
  }

  /** The row as an operation leaves it: still sound, and under its old code. */
  ghost predicate Keeps(row: LobbyRow, r: LobbyRow) {
    RowSound(r) && r.code == row.code
  }

  lemma OneRowKept(t: Table, id: string, r: LobbyRow)
    requires Sound(t) && id in t && Keeps(t[id], r)
    ensures Sound(t[id := r])
  {
    hide RowSound;
  }

  lemma AllRowsKept(t: Table, u: Table)
    requires Sound(t) && u.Keys == t.Keys && forall id <- t :: Keeps(t[id], u[id])
    ensures Sound(u)
  {
    hide RowSound;
  }

  lemma SoundAt(t: Table, id: string)
    requires Sound(t) && id in t
    ensures RowSound(t[id]) && Owned(t[id])
  {
  }

  lemma JoinKept(row: LobbyRow, user: UserId, now: int)
    requires RowSound(row) && row.state == Open && |ActiveBut(row, user)| < MAX_MEMBERS
    ensures Keeps(row, Joined(row, user, now))
  {
    JoinedOwned(row, user, now);
  }

  lemma LeaveKept(row: LobbyRow, user: UserId, heir: Option<UserId>)
    requires RowSound(row) && row.state == Open && IsActive(row, user)
    requires row.owner == user ==> IsHeir(Gone(row, user), heir)
    ensures Keeps(row, Left(row, user, heir))
  {
    LeftOwned(row, user, heir);
  }

  lemma KickKept(row: LobbyRow, target: UserId)
    requires RowSound(row) && Kickable(row, target)
    ensures Keeps(row, Gone(row, target))
  {
    KickedOwned(row, target);
  }

  lemma TransferKept(row: LobbyRow, taker: UserId)
    requires RowSound(row) && row.state == Open && IsActive(row, taker)
    ensures Keeps(row, Handed(row, taker))
  {
    OpenSize(row);
    HandedOwned(row, taker);
  }

  lemma BeginKept(row: LobbyRow, matchId: string)
    requires RowSound(row) && row.state == Open
    ensures Keeps(row, Begun(row, matchId))
  {
    BegunOwned(row, matchId);
  }

  lemma ReopenKept(row: LobbyRow, ended: set<string>)
    requires RowSound(row)
    ensures Keeps(row, if InEndedMatch(row, ended) then Reopened(row) else row)
  {
    if InEndedMatch(row, ended) { ReopenedOwned(row); }
  }

  lemma EndKept(row: LobbyRow)
    requires RowSound(row)
    ensures Keeps(row, row.(state := Expired)) && Keeps(row, row)
  {
    EndedOwned(row, Expired);
  }

  lemma ModeKept(row: LobbyRow, mode: string)
    requires RowSound(row) && IsPartyMode(mode)
    ensures Keeps(row, row.(mode := mode))
  {
    ModeOwned(row, mode);
  }

  lemma CreateKept(t: Table, id: string, row: LobbyRow)
    requires Sound(t) && Enabled(t, Create(id, row))
    ensures Sound(After(t, Create(id, row)))
  {
    hide Owned, Created;
    var owner, expiresAt, now :| row == Created(row.code, row.mode, owner, expiresAt, now);
    CreatedOwned(row.code, row.mode, owner, expiresAt, now);
  }

  lemma AllKept(t: Table, op: Op)
    requires Sound(t) && (op.Reopen? || op.Expire?)
    ensures Sound(After(t, op))
  {
    hide Sound, Keeps, RowSound, InEndedMatch, Reopened;
    var u := After(t, op);
    forall id <- t ensures Keeps(t[id], u[id]) {
      SoundAt(t, id);
      EndKept(t[id]);
      if op.Reopen? { ReopenKept(t[id], op.ended); }
    }
    AllRowsKept(t, u);
  }

  /** Every operation keeps ownership, a stale Kick included. */
  lemma StepKeepsSound(t: Table, op: Op)
    requires Sound(t) && Enabled(t, op)
    ensures Sound(After(t, op))
  {
    if op.Create? {
      CreateKept(t, op.id, op.row);
    } else if op.Reopen? || op.Expire? {
      AllKept(t, op);
    } else if op.id in t {
      OneRowStep(t, op);
    }
  }

  lemma OneRowStep(t: Table, op: Op)
    requires Sound(t) && Enabled(t, op) && !op.Create? && !op.Reopen? && !op.Expire? && op.id in t
    ensures Sound(After(t, op))
  {
    hide Sound, Keeps, RowSound, IsHeir, Joined, Gone, Left, Handed, Begun, ActiveBut, Active, IsPartyMode;
    var id, row := op.id, t[op.id];
    SoundAt(t, id);
    match op
    case Join(_, user, now) =>
      if JoinError(t, id, user, now).None? { JoinKept(row, user, now); OneRowKept(t, id, Joined(row, user, now)); }
      if JoinError(t, id, user, now) == Some(PastExpiry) { EndKept(row); OneRowKept(t, id, row.(state := Expired)); }
    case Leave(_, user, heir) =>
      if LeaveError(t, id, user).None? { LeaveKept(row, user, heir); OneRowKept(t, id, Left(row, user, heir)); }
    case Remove(_, target) =>
      if Kickable(row, target) { KickKept(row, target); OneRowKept(t, id, Gone(row, target)); }
    case Transfer(_, giver, taker) =>
      if TransferError(t, id, giver, taker).None? { TransferKept(row, taker); OneRowKept(t, id, Handed(row, taker)); }
    case Begin(_, matchId) =>
      if row.state == Open { BeginKept(row, matchId); OneRowKept(t, id, Begun(row, matchId)); }
    case SetMode(_, mode) =>
      if IsPartyMode(mode) { ModeKept(row, mode); OneRowKept(t, id, row.(mode := mode)); }
  }

  lemma ModeOwned(row: LobbyRow, mode: string)
    requires Owned(row)
    ensures Owned(row.(mode := mode))
  {
    assert Active(row.(mode := mode)) == Active(row);
  }

  lemma OpenSize(row: LobbyRow)
    requires Owned(row) && IsLive(row.state)
    ensures |Active(row)| <= MAX_MEMBERS
  {
  }

  lemma EndedOwned(row: LobbyRow, s: LobbyState)
    requires !IsLive(s)
    ensures Owned(row.(state := s))
  {
  }

  /** The owner's row is never kickable, so a Kick can only hit somebody else. */
  lemma KickedOwned(row: LobbyRow, target: UserId)
    requires Owned(row) && Kickable(row, target)
    ensures Owned(Gone(row, target))
  {
    if IsLive(row.state) { GoneOwned(row, target); }
  }

  lemma BegunOwned(row: LobbyRow, matchId: string)
    requires Owned(row) && row.state == Open
    ensures Owned(Begun(row, matchId))
  {
    assert Active(Begun(row, matchId)) == Active(row);
  }

  lemma ReopenedOwned(row: LobbyRow)
    requires Owned(row) && IsLive(row.state)
    ensures Owned(Reopened(row))
  {
    assert Active(Reopened(row)) == Active(row);
  }

  // ----- runs ----------------------------------------------------------------------

  function Run(t: Table, ops: seq<Op>): Table {
    if ops == [] then t else After(Run(t, ops[..|ops| - 1]), ops[|ops| - 1])
  }

  ghost predicate IsRun(t: Table, ops: seq<Op>) {
    ops == [] || (IsRun(t, ops[..|ops| - 1]) && Enabled(Run(t, ops[..|ops| - 1]), ops[|ops| - 1]))
  }

  lemma {:induction false} RunKeepsSound(t: Table, ops: seq<Op>)
    requires Sound(t) && IsRun(t, ops)
    ensures Sound(Run(t, ops))
  {
    hide Sound, After, Enabled;
    if ops != [] {
      RunKeepsSound(t, ops[..|ops| - 1]);
      StepKeepsSound(Run(t, ops[..|ops| - 1]), ops[|ops| - 1]);
    }
  }

  lemma EndedStays(t: Table, op: Op, id: string)
    requires id in t && !IsLive(t[id].state)
    ensures id in After(t, op) && After(t, op)[id].state == t[id].state && After(t, op)[id].owner == t[id].owner
  {
    hide Active, ActiveBut;
  }

  /** A lobby once closed or expired never comes back, whatever is done. */
  lemma {:induction false} EndedForGood(t: Table, ops: seq<Op>, id: string)
    requires id in t && !IsLive(t[id].state)
    ensures id in Run(t, ops) && Run(t, ops)[id].state == t[id].state && Run(t, ops)[id].owner == t[id].owner
  {
    hide After;
    if ops != [] {
      EndedForGood(t, ops[..|ops| - 1], id);
      EndedStays(Run(t, ops[..|ops| - 1]), ops[|ops| - 1], id);
    }
  }

  /** Ownership moves only when the owner hands it over or leaves, and only to an active member. */
  lemma OwnerMovesByOwner(t: Table, op: Op, id: string)
    requires id in t && Enabled(t, op) && After(t, op)[id].owner != t[id].owner
    ensures (op.Transfer? && op.giver == t[id].owner) || (op.Leave? && op.user == t[id].owner)
    ensures IsActive(t[id], After(t, op)[id].owner)
  {
    hide Active, ActiveBut;
  }

  /**
   * A former owner who comes back has the owner's role beside the new owner,
   * and cannot be kicked: a Kick works on exactly the active members without
   * that role.
   */
  lemma FormerOwnerStays(t: Table, id: string, user: UserId, heir: UserId, now: int)
    requires Sound(t) && id in t && t[id].state == Open && t[id].owner == user && now <= t[id].expiresAt
    requires IsHeir(Gone(t[id], user), Some(heir))
    ensures var back := After(After(t, Leave(id, user, Some(heir))), Join(id, user, now));
            && id in back && back[id].owner == heir != user
            && IsActive(back[id], user) && back[id].members[user].role == Owner
            && After(back, Remove(id, user)) == back
  {
    hide Sound, Owned, IsHeir, Gone, Left, Joined, Active, ActiveBut;
    SoundAt(t, id);
    FormerOwnerRow(t[id], user, heir, now);
  }

  lemma FormerOwnerRow(row: LobbyRow, user: UserId, heir: UserId, now: int)
    requires Owned(row) && row.state == Open && row.owner == user && IsHeir(Gone(row, user), Some(heir))
    ensures IsActive(row, user)
    ensures var left := Left(row, user, Some(heir));
            && left.state == Open && left.expiresAt == row.expiresAt && left.owner == heir != user
            && |ActiveBut(left, user)| < MAX_MEMBERS
            && var back := Joined(left, user, now);
               back.owner == heir && IsActive(back, user) && back.members[user].role == Owner && !Kickable(back, user)
  {
    var gone := Gone(row, user);
    LeavingFreesASeat(row, user);
    HandedOwned(gone, heir);
    assert ActiveBut(Handed(gone, heir), user) == Active(gone);
  }

  lemma LeavingFreesASeat(row: LobbyRow, user: UserId)
    requires IsActive(row, user)
    ensures |Active(Gone(row, user))| == |Active(row)| - 1
  {
    assert Active(row) == Active(Gone(row, user)) + {user};
  }

  ghost predicate HasOwnerRole(t: Table, id: string, u: UserId) {
    id in t && u in t[id].members && t[id].members[u].role == Owner
  }

  lemma OwnerRoleEarned(t: Table, op: Op, id: string, u: UserId)
    requires Enabled(t, op) && HasOwnerRole(After(t, op), id, u)
    ensures HasOwnerRole(t, id, u) || After(t, op)[id].owner == u
  {
    hide Active, ActiveBut;
  }

  /** Whoever has the owner's role, and so cannot be kicked, has owned the lobby at some time. */
  lemma {:induction false} UnkickableHasOwned(ops: seq<Op>, id: string, u: UserId) returns (k: nat)
    requires IsRun(map[], ops) && HasOwnerRole(Run(map[], ops), id, u)
    ensures k <= |ops| && id in Run(map[], ops[..k]) && Run(map[], ops[..k])[id].owner == u
  {
    hide After, Enabled;
    k := |ops|;
    assert ops[..|ops|] == ops;
    if Run(map[], ops)[id].owner != u {
      var before := ops[..|ops| - 1];
      OwnerRoleEarned(Run(map[], before), ops[|ops| - 1], id, u);
      k := UnkickableHasOwned(before, id, u);
      assert before[..k] == ops[..k];
    }
  }

  // ----- the store -----------------------------------------------------------------

  class LobbyStore {
    var lobbies: Table

    ghost predicate Valid()
      reads this
    {
      Sound(lobbies)
    }

    constructor ()
      ensures Valid() && lobbies == map[]
    {
      lobbies := map[];
    }

    /** Tries fresh ids and codes until a pair is free. */
    method CreateLobby(owner: string, mode: string, tries: seq<(string, string)>, ttl: int, now: int) returns (r: Result<string, LobbyError>)
      requires Valid() && |tries| == ATTEMPTS
      modifies this
      ensures Valid()
      ensures r.Success? ==> owner != "" && exists i | 0 <= i < ATTEMPTS ::
                && Free(old(lobbies), tries[i]) && r.value == tries[i].0 && (forall j | 0 <= j < i :: !Free(old(lobbies), tries[j]))
                && lobbies == After(old(lobbies), Create(r.value, Created(tries[i].1, ModeOr(mode), owner, now + (if ttl <= 0 then DEFAULT_TTL else ttl), now)))
      ensures r.Failure? ==> lobbies == old(lobbies)
      ensures r.Success? ==> IsPartyMode(ModeOr(mode))
      ensures r.Failure? ==> if owner == "" then r.error == OwnerRequired
                             else if !IsPartyMode(ModeOr(mode)) then r.error == UnsupportedMode
                             else r.error == NoCode && forall i | 0 <= i < ATTEMPTS :: !Free(old(lobbies), tries[i])
    {
      hide Sound, Created;
      if owner == "" {
        return Failure(OwnerRequired);
      }
      var chosen := if mode == "" then DUEL else mode;
      if !IsPartyMode(chosen) {
        return Failure(UnsupportedMode);
      }
      var expiresAt := now + if ttl <= 0 then DEFAULT_TTL else ttl;
      for attempt := 0 to ATTEMPTS
        invariant lobbies == old(lobbies)
        invariant forall j | 0 <= j < attempt :: !Free(lobbies, tries[j])
      {
        var (id, code) := tries[attempt];
        if id !in lobbies && CodeFree(lobbies, code) {
          var row := Created(code, chosen, owner, expiresAt, now);
          CreatedCode(code, chosen, owner, expiresAt, now);
          StepKeepsSound(lobbies, Create(id, row));
          lobbies := lobbies[id := row];
          return Success(id);
        }
      }
      return Failure(NoCode);
    }

    /** A lobby found past its expiry is marked expired on the way out. */
    method EnsureOpen(id: string, now: int) returns (e: Option<LobbyError>)
      modifies this
      ensures e == if id !in old(lobbies) then Some(NoRows)
                   else if old(lobbies)[id].state != Open then Some(NotOpen)
                   else if now > old(lobbies)[id].expiresAt then Some(PastExpiry) else None
      ensures lobbies == if e == Some(PastExpiry) then old(lobbies)[id := old(lobbies)[id].(state := Expired)] else old(lobbies)
    {
      if id !in lobbies {
        return Some(NoRows);
      }
      if lobbies[id].state != Open {
        return Some(NotOpen);
      }
      if now > lobbies[id].expiresAt {
        lobbies := lobbies[id := lobbies[id].(state := Expired)];
        return Some(PastExpiry);
      }
      return None;
    }

    method JoinLobby(id: string, user: UserId, now: int) returns (e: Option<LobbyError>)
      requires Valid()
      modifies this
      ensures Valid()
      ensures e == JoinError(old(lobbies), id, user, now)
      ensures lobbies == After(old(lobbies), Join(id, user, now))
    {
      hide Sound;
      StepKeepsSound(lobbies, Join(id, user, now));
      e := EnsureOpen(id, now);
      if e.Some? {
        return;
      }
      var row := lobbies[id];
      if |ActiveBut(row, user)| >= MAX_MEMBERS {
        return Some(Full);
      }
      var role := if row.owner == user then Owner else Member;
      var member := MemberRow(role, now, true);
      if user in row.members {
        var was := row.members[user];
        member := MemberRow(if was.role == Owner then Owner else role, if was.active then was.joinedAt else now, true);
      }
      lobbies := lobbies[id := row.(members := row.members[user := member])];
    }

    /** The earliest to have joined among the active members, as the database picks one. */
    method NextOwner(row: LobbyRow) returns (heir: Option<UserId>)
      ensures IsHeir(row, heir)
    {
      heir := None;
      var todo := Active(row);
      while todo != {}
        invariant todo <= Active(row)
        invariant heir.None? ==> todo == Active(row)
        invariant heir.Some? ==> heir.value in Active(row)
        invariant heir.Some? ==> forall u | u in Active(row) && u !in todo :: row.members[heir.value].joinedAt <= row.members[u].joinedAt
        decreases todo
      {
        var u :| u in todo;
        if heir.None? || row.members[u].joinedAt < row.members[heir.value].joinedAt {
          heir := Some(u);
        }
        todo := todo - {u};
      }
    }

    method LeaveLobby(id: string, user: UserId) returns (e: Option<LobbyError>, ghost heir: Option<UserId>)
      requires Valid()
      modifies this
      ensures Valid()
      ensures e == LeaveError(old(lobbies), id, user)
      ensures Enabled(old(lobbies), Leave(id, user, heir)) && lobbies == After(old(lobbies), Leave(id, user, heir))
    {
      hide Sound, IsHeir;
      heir := None;
      if id !in lobbies {
        return Some(NoRows), heir;
      }
      var row := lobbies[id];
      if row.state != Open {
        return Some(NotOpen), heir;
      }
      if !IsActive(row, user) {
        return Some(NoRows), heir;
      }
      var owner := row.owner;
      row := row.(members := row.members[user := row.members[user].(active := false)]);
      if owner == user {
        var next := NextOwner(row);
        heir := next;
        if next.None? {
          row := row.(state := Closed);
        } else {
          row := Handed(row, next.value);
        }
      }
      StepKeepsSound(lobbies, Leave(id, user, heir));
      lobbies := lobbies[id := row];
      return None, heir;
    }

    method EnsureOwner(id: string, user: UserId) returns (e: Option<LobbyError>)
      ensures e == OwnerError(lobbies, id, user)
    {
      if id !in lobbies {
        return Some(NoRows);
      }
      if lobbies[id].state != Open {
        return Some(NotOpen);
      }
      if lobbies[id].owner != user {
        return Some(Forbidden);
      }
      return None;
    }

    /** The second step of a Kick, on whatever the table holds by then. */
    method RemoveMember(id: string, target: UserId) returns (e: Option<LobbyError>)
      requires Valid()
      modifies this
      ensures Valid() && lobbies == After(old(lobbies), Remove(id, target))
      ensures e == if id in old(lobbies) && Kickable(old(lobbies)[id], target) then None else Some(NoRows)
    {
      hide Sound;
      StepKeepsSound(lobbies, Remove(id, target));
      if id !in lobbies || !Kickable(lobbies[id], target) {
        return Some(NoRows);
      }
      lobbies := lobbies[id := Gone(lobbies[id], target)];
      return None;
    }

    method KickLobbyMember(id: string, giver: UserId, target: UserId) returns (e: Option<LobbyError>)
      requires Valid()
      modifies this
      ensures Valid()
      ensures e == if giver == target then Some(InvalidMember)
                   else if OwnerError(old(lobbies), id, giver).Some? then OwnerError(old(lobbies), id, giver)
                   else if Kickable(old(lobbies)[id], target) then None else Some(NoRows)
      ensures lobbies == if e.None? then After(old(lobbies), Remove(id, target)) else old(lobbies)
    {
      hide Sound;
      if giver == target {
        return Some(InvalidMember);
      }
      e := EnsureOwner(id, giver);
      if e.None? {
        e := RemoveMember(id, target);
      }
    }

    method TransferLobbyOwner(id: string, giver: UserId, taker: UserId) returns (e: Option<LobbyError>)
      requires Valid()
      modifies this
      ensures Valid()
      ensures e == TransferError(old(lobbies), id, giver, taker)
      ensures lobbies == After(old(lobbies), Transfer(id, giver, taker))
    {
      hide Sound;
      StepKeepsSound(lobbies, Transfer(id, giver, taker));
      e := EnsureOwner(id, giver);
      if e.Some? {
        return;
      }
      if giver == taker {
        return Some(InvalidMember);
      }
      if !IsActive(lobbies[id], taker) {
        return Some(NoRows);
      }
      lobbies := lobbies[id := Handed(lobbies[id], taker)];
    }

    method SetLobbyMode(id: string, mode: string) returns (e: Option<LobbyError>)
      requires Valid()
      modifies this
      ensures Valid() && lobbies == After(old(lobbies), SetMode(id, mode))
      ensures e == if id == "" || !IsPartyMode(mode) then Some(UnsupportedMode)
                   else if id in old(lobbies) && old(lobbies)[id].state == Open then None else Some(NotOpen)
    {
      hide Sound;
      StepKeepsSound(lobbies, SetMode(id, mode));
      if id == "" || !IsPartyMode(mode) {
        return Some(UnsupportedMode);
      }
      if id !in lobbies || lobbies[id].state != Open {
        return Some(NotOpen);
      }
      lobbies := lobbies[id := lobbies[id].(mode := mode)];
      return None;
    }

    method MarkLobbyInMatch(id: string, matchId: string) returns (e: Option<LobbyError>)
      requires Valid()
      modifies this
      ensures Valid() && lobbies == After(old(lobbies), Begin(id, matchId))
      ensures e == if id in old(lobbies) && old(lobbies)[id].state == Open then None else Some(NoRows)
    {
      hide Sound;
      StepKeepsSound(lobbies, Begin(id, matchId));
      if id !in lobbies || lobbies[id].state != Open {
        return Some(NoRows);
      }
      lobbies := lobbies[id := Begun(lobbies[id], matchId)];
      return None;
    }

    method ReopenEndedLobbies(ended: set<string>)
      requires Valid()
      modifies this
      ensures Valid() && lobbies == After(old(lobbies), Reopen(ended))
    {
      hide Sound;
      StepKeepsSound(lobbies, Reopen(ended));
      lobbies := map id | id in lobbies :: if InEndedMatch(lobbies[id], ended) then Reopened(lobbies[id]) else lobbies[id];
    }

    method ExpireOpenLobbies(now: int)
      requires Valid()
      modifies this
      ensures Valid() && lobbies == After(old(lobbies), Expire(now))
    {
      hide Sound;
      StepKeepsSound(lobbies, Expire(now));
      lobbies := map id | id in lobbies ::
        if lobbies[id].state == Open && lobbies[id].expiresAt < now then lobbies[id].(state := Expired) else lobbies[id];
    }
  }

  lemma CreatedCode(code: string, mode: string, owner: UserId, expiresAt: int, now: int)
    ensures var row := Created(code, mode, owner, expiresAt, now); row.code == code && row.mode == mode
  {
  }
}
