/** What each lobby operation does for the people in it, and who is a member after any run. */
module LobbyMembers {
  import opened Common
  import opened SortedSets
  import opened Lobbies

  /** Everything about a lobby but its owner, state and members. */
  ghost predicate SameLobby(row: LobbyRow, r: LobbyRow) {
    && r.code == row.code && r.mode == row.mode && r.expiresAt == row.expiresAt
    && r.activeMatch == row.activeMatch && r.startedMatch == row.startedMatch && r.lastMatch == row.lastMatch
  }

  /** All rows but one are as they were. */
  ghost predicate OthersSame(row: LobbyRow, r: LobbyRow, user: UserId) {
    forall u | u != user :: (u in r.members <==> u in row.members) && (u in row.members ==> r.members[u] == row.members[u])
  }

  // ----- who may -----------------------------------------------------------------

  /** A join works exactly on an open lobby not past its time with a seat free for the user. */
  lemma JoinAllowedExactly(t: Table, id: string, user: UserId, now: int)
    ensures JoinError(t, id, user, now).None? <==>
              id in t && t[id].state == Open && now <= t[id].expiresAt && |Active(t[id]) - {user}| < 8
  {
    if id in t { assert ActiveBut(t[id], user) == Active(t[id]) - {user}; }
  }

  /** Leaving works for the members of an open lobby, handing over for its owner and another member, a Kick on those without the owner's role. */
  lemma AllowedExactly(t: Table, id: string, user: UserId, other: UserId)
    ensures LeaveError(t, id, user).None? <==> id in t && t[id].state == Open && user in Active(t[id])
    ensures TransferError(t, id, user, other).None? <==>
              id in t && t[id].state == Open && t[id].owner == user && user != other && other in Active(t[id])
    ensures id in t ==> (Kickable(t[id], other) <==> other in Active(t[id]) && t[id].members[other].role == Member)
  {
  }

  /** A lobby starts open, with its owner as its one member. */
  lemma CreateOpens(t: Table, id: string, row: LobbyRow)
    requires id !in t && Enabled(t, Create(id, row))
    ensures var after := After(t, Create(id, row));
            && id in after && after == t[id := after[id]]
            && var r := after[id];
               && r.state == Open && Active(r) == {r.owner} && r.members[r.owner].role == Owner
               && r.activeMatch.None? && r.startedMatch.None? && r.lastMatch.None?
  {
    var owner, expiresAt, now :| row == Created(row.code, row.mode, owner, expiresAt, now);
    assert Active(row) == {owner};
  }

  // ----- one operation -------------------------------------------------------------

  /** A join that is not refused makes just that user a member, from now on unless a member already. */
  lemma JoinAdds(t: Table, id: string, user: UserId, now: int)
    requires JoinError(t, id, user, now).None?
    ensures var row, after := t[id], After(t, Join(id, user, now));
            && id in after && after == t[id := after[id]]
            && var r := after[id];
               && Active(r) == Active(row) + {user}
               && OthersSame(row, r, user) && SameLobby(row, r) && r.owner == row.owner && r.state == row.state
               && user in r.members
               && r.members[user].joinedAt == (if user in row.members && row.members[user].active then row.members[user].joinedAt else now)
               && (r.members[user].role == Owner <==> user == row.owner || (user in row.members && row.members[user].role == Owner))
  {
    var row, r := t[id], After(t, Join(id, user, now))[id];
    forall u ensures u in Active(r) <==> u in Active(row) + {user} {
    }
  }

  /** A leave that is not refused takes out just that user; a lobby whose owner left goes to the heir, or closes. */
  lemma LeaveDrops(t: Table, id: string, user: UserId, heir: Option<UserId>)
    requires LeaveError(t, id, user).None? && Enabled(t, Leave(id, user, heir))
    ensures var row, after := t[id], After(t, Leave(id, user, heir));
            && id in after && after == t[id := after[id]]
            && var r := after[id];
               && Active(r) == Active(row) - {user} && user in row.members
               && r.members.Keys == row.members.Keys && SameLobby(row, r)
               && (forall u <- row.members :: r.members[u].joinedAt == row.members[u].joinedAt)
               && r.members[user].role == row.members[user].role
               && (row.owner != user ==> OthersSame(row, r, user) && r.owner == row.owner && r.state == row.state)
               && (row.owner == user ==> (r.state == Closed <==> Active(row) == {user}) && (r.state == Closed || r.state == row.state))
               && (row.owner == user && r.state != Closed ==>
                     && r.owner in Active(r)
                     && (forall u <- Active(r) :: row.members[r.owner].joinedAt <= row.members[u].joinedAt)
                     && forall u <- Active(r) :: r.members[u].role == Owner <==> u == r.owner)
  {
    var row, r := t[id], After(t, Leave(id, user, heir))[id];
    var gone := Gone(row, user);
    assert Active(gone) == Active(row) - {user};
    assert Active(r) == Active(gone);
    if row.owner == user && heir.None? {
      assert Active(row) == {user};
    }
    if row.owner == user && heir.Some? {
      assert heir.value in Active(gone);
    }
  }

  /** A Kick that works takes out just its target. */
  lemma KickDrops(t: Table, id: string, target: UserId)
    requires id in t && Kickable(t[id], target)
    ensures var row, after := t[id], After(t, Remove(id, target));
            && id in after && after == t[id := after[id]]
            && var r := after[id];
               && Active(r) == Active(row) - {target} && OthersSame(row, r, target) && SameLobby(row, r)
               && r.owner == row.owner && r.state == row.state
               && target in r.members && r.members[target] == row.members[target].(active := false)
  {
    var row, r := t[id], After(t, Remove(id, target))[id];
    assert Active(r) == Active(row) - {target};
  }

  /** A transfer gives its taker, and no other member, the owner's role; nobody joins or leaves. */
  lemma TransferHands(t: Table, id: string, giver: UserId, taker: UserId)
    requires TransferError(t, id, giver, taker).None?
    ensures var row, after := t[id], After(t, Transfer(id, giver, taker));
            && id in after && after == t[id := after[id]]
            && var r := after[id];
               && row.owner == giver && r.owner == taker && Active(r) == Active(row) && SameLobby(row, r) && r.state == row.state
               && r.members.Keys == row.members.Keys
               && (forall u <- row.members :: r.members[u].joinedAt == row.members[u].joinedAt)
               && (forall u <- Active(row) :: r.members[u].role == Owner <==> u == taker)
               && forall u <- row.members | u !in Active(row) :: r.members[u] == row.members[u]
  {
    var row, r := t[id], After(t, Transfer(id, giver, taker))[id];
    assert Active(r) == Active(row);
  }

  // ----- a lobby's matches ---------------------------------------------------------

  /** A lobby that starts a match is in it until that match has ended, and then open again with the match as its last. */
  lemma MatchOpensAgain(t: Table, id: string, matchId: string, ended: set<string>)
    requires id in t && t[id].state == Open
    ensures var begun := After(t, Begin(id, matchId));
            && begun == t[id := t[id].(state := InMatch, activeMatch := Some(matchId), startedMatch := Some(matchId))]
            && var after := After(begun, Reopen(ended));
               && id in after
               && after[id] == if matchId in ended then t[id].(activeMatch := None, startedMatch := None, lastMatch := Some(matchId)) else begun[id]
  {
  }

  /** Only the end of its match opens a lobby that was not open. */
  lemma OpensOnlyByReopen(t: Table, op: Op, id: string)
    requires id in t && t[id].state != Open && id in After(t, op) && After(t, op)[id].state == Open
    ensures op.Reopen? && IsLive(t[id].state) && t[id].activeMatch.Some? && t[id].activeMatch.value in op.ended
  {
    hide Active, ActiveBut;
  }

  /** Only a start takes a lobby out of the open state and leaves it live, and only a match that was open. */
  lemma StartsOnlyByBegin(t: Table, op: Op, id: string)
    requires id in t && id in After(t, op) && t[id].state == Open && After(t, op)[id].state != Open && IsLive(After(t, op)[id].state)
    ensures op.Begin? && op.id == id && After(t, op)[id].activeMatch == Some(op.matchId)
  {
    hide Active, ActiveBut;
  }

  /** Expiry closes just the open lobbies past their time. */
  lemma ExpiresExactly(t: Table, now: int, id: string)
    requires id in t
    ensures var after := After(t, Expire(now));
            && after.Keys == t.Keys
            && after[id] == if t[id].state == Open && t[id].expiresAt < now then t[id].(state := Expired) else t[id]
  {
  }

  // ----- members over runs ------------------------------------------------------------

  ghost predicate Belongs(t: Table, id: string, u: UserId) {
    id in t && u in Active(t[id])
  }

  /** The operation makes the user a member: a join that is not refused, or the lobby's creation. */
  ghost predicate Enters(t: Table, op: Op, id: string, u: UserId) {
    || (op.Join? && op.id == id && op.user == u && JoinError(t, id, u, op.now).None?)
    || (op.Create? && op.id == id && id !in t && op.row.owner == u)
  }

  /** The operation takes the user out: a leave that is not refused, or a Kick that works. */
  ghost predicate Exits(t: Table, op: Op, id: string, u: UserId) {
    || (op.Leave? && op.id == id && op.user == u && LeaveError(t, id, u).None?)
    || (op.Remove? && op.id == id && op.target == u && id in t && Kickable(t[id], u))
  }

  lemma StepBelongs(t: Table, op: Op, id: string, u: UserId)
    requires Enabled(t, op)
    ensures Belongs(After(t, op), id, u) <==> Enters(t, op, id, u) || (Belongs(t, id, u) && !Exits(t, op, id, u))
  {
    match op
    case Join(jid, user, now) => if JoinError(t, jid, user, now).None? { JoinAdds(t, jid, user, now); }
    case Leave(lid, user, heir) => if LeaveError(t, lid, user).None? { LeaveDrops(t, lid, user, heir); }
    case Remove(rid, target) => if rid in t && Kickable(t[rid], target) { KickDrops(t, rid, target); }
    case Transfer(tid, giver, taker) => if TransferError(t, tid, giver, taker).None? { TransferHands(t, tid, giver, taker); }
    case _ =>
  }

  /** The k-th operation made the user a member, and none since took the user out. */
  ghost predicate InSince(ops: seq<Op>, id: string, u: UserId, k: nat) {
    && k < |ops| && Enters(Run(map[], ops[..k]), ops[k], id, u)
    && forall j | k < j < |ops| :: !Exits(Run(map[], ops[..j]), ops[j], id, u)
  }

  /** After any run the members are just those who came in and have not gone out since. */
  lemma {:induction false} BelongsExactly(ops: seq<Op>, id: string, u: UserId)
    requires IsRun(map[], ops)
    ensures Belongs(Run(map[], ops), id, u) <==> exists k: nat :: InSince(ops, id, u, k)
  {
    hide After, Enabled, Belongs, Enters, Exits;
    if ops == [] {
      NobodyYet(id, u);
    } else {
      var before, op := ops[..|ops| - 1], ops[|ops| - 1];
      BelongsExactly(before, id, u);
      StepBelongs(Run(map[], before), op, id, u);
      forall k: nat | k < |before| ensures InSince(ops, id, u, k) <==> InSince(before, id, u, k) && !Exits(Run(map[], before), op, id, u) {
        SinceOneMore(ops, id, u, k);
      }
      assert InSince(ops, id, u, |before|) <==> Enters(Run(map[], before), op, id, u);
    }
  }

  lemma NobodyYet(id: string, u: UserId)
    ensures !Belongs(Run(map[], []), id, u) && forall k: nat :: !InSince([], id, u, k)
  {
  }

  lemma SinceOneMore(ops: seq<Op>, id: string, u: UserId, k: nat)
    requires ops != [] && k < |ops| - 1
    ensures var before := ops[..|ops| - 1];
            InSince(ops, id, u, k) <==> InSince(before, id, u, k) && !Exits(Run(map[], before), ops[|ops| - 1], id, u)
  {
    hide Run, Enters, Exits;
    var before := ops[..|ops| - 1];
    assert before[..k] == ops[..k];
    assert forall j | k < j < |before| :: before[..j] == ops[..j] && before[j] == ops[j];
    assert ops[..|before|] == before;
  }
}
