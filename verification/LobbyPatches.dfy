/** Lobby snapshots, the patch between two of them, and what applying a patch gives. */
module LobbyPatches {
  import opened Common

  datatype Badge = Badge(id: string, kind: string, text: string, description: string, imageUrl: string,
                         seasonId: string, rank: int, owned: bool)

  datatype Member = Member(
    userId: string, displayName: string, avatarUrl: string, isGuest: bool, isAdmin: bool, badge: Option<Badge>,
    teamId: string, role: string, ready: bool, connected: bool, presence: string, joinedAt: int)

  /** What a missing map entry reads as. */
  const ZERO_MEMBER := Member("", "", "", false, false, None, "", "", false, false, "", 0)

  datatype Config = Config(ruleset: string, mapKey: string, timer: string, limitMs: int, pressureMs: int)

  /** The fields a patch can carry. */
  datatype Fields = Fields(
    state: string, owner: string, mode: string, config: Config,
    activeMatch: string, lastMatch: string, startedMatch: string)

  datatype Lobby = Lobby(
    id: string, inviteCode: string, mapScope: string, createdAt: int, expiresAt: int,
    fields: Fields, members: seq<Member>)

  datatype Patch = Patch(
    revision: int, state: Option<string>, owner: Option<string>, mode: Option<string>, config: Option<Config>,
    activeMatch: Option<string>, lastMatch: Option<string>, startedMatch: Option<string>,
    upserts: seq<Member>, removes: seq<string>)

  // ----- members as a table ---------------------------------------------------

  /** Members by id; of two with the same id, the later one. */
  function Table(members: seq<Member>): (r: map<string, Member>)
    ensures forall u :: u in r <==> exists m <- members :: m.userId == u
    ensures forall u <- r :: r[u] in members && r[u].userId == u
  {
    if members == [] then map[]
    else
      var last := members[|members| - 1];
      Table(members[..|members| - 1])[last.userId := last]
  }

  ghost predicate Distinct(members: seq<Member>) {
    forall i, j | 0 <= i < j < |members| :: members[i].userId != members[j].userId
  }

  lemma {:induction false} TableHolds(members: seq<Member>, m: Member)
    requires Distinct(members) && m in members
    ensures Table(members)[m.userId] == m
  {
    var before, last := members[..|members| - 1], members[|members| - 1];
    if m in before {
      TableHolds(before, m);
    }
  }

  lemma TableOfOneMore(members: seq<Member>, i: nat)
    requires i < |members|
    ensures Table(members[..i + 1]) == Table(members[..i])[members[i].userId := members[i]]
  {
    assert members[..i + 1][..i] == members[..i];
  }

  // ----- the patch --------------------------------------------------------------

  function Diff<T(==)>(before: T, after: T): Option<T> {
    if before == after then None else Some(after)
  }

  predicate Differs(prev: map<string, Member>, m: Member) {
    (if m.userId in prev then prev[m.userId] else ZERO_MEMBER) != m
  }

  /** The members to send: those the previous table has differently, or not at all. */
  function Changed(prev: map<string, Member>, members: seq<Member>): (r: seq<Member>)
    ensures forall m :: m in r <==> m in members && Differs(prev, m)
  {
    if members == [] then []
    else
      var last := members[|members| - 1];
      Changed(prev, members[..|members| - 1]) + if Differs(prev, last) then [last] else []
  }

  lemma ChangedOneMore(prev: map<string, Member>, members: seq<Member>, i: nat)
    requires i < |members|
    ensures Changed(prev, members[..i + 1]) == Changed(prev, members[..i]) + if Differs(prev, members[i]) then [members[i]] else []
  {
    assert members[..i + 1][..i] == members[..i];
  }

  /** Every field is sent exactly if it changed; removals come in any order, each once. */
  ghost predicate IsPatch(prev: Lobby, next: Lobby, revision: int, p: Patch) {
    && p.revision == revision
    && p.state == Diff(prev.fields.state, next.fields.state)
    && p.owner == Diff(prev.fields.owner, next.fields.owner)
    && p.mode == Diff(prev.fields.mode, next.fields.mode)
    && p.config == Diff(prev.fields.config, next.fields.config)
    && p.activeMatch == Diff(prev.fields.activeMatch, next.fields.activeMatch)
    && p.lastMatch == Diff(prev.fields.lastMatch, next.fields.lastMatch)
    && p.startedMatch == Diff(prev.fields.startedMatch, next.fields.startedMatch)
    && p.upserts == Changed(Table(prev.members), next.members)
    && Lists(p.removes, Table(prev.members).Keys - Table(next.members).Keys)
  }

  method DiffFields(prev: Fields, next: Fields, revision: int) returns (p: Patch)
    ensures p == Patch(revision, Diff(prev.state, next.state), Diff(prev.owner, next.owner), Diff(prev.mode, next.mode),
                       Diff(prev.config, next.config), Diff(prev.activeMatch, next.activeMatch),
                       Diff(prev.lastMatch, next.lastMatch), Diff(prev.startedMatch, next.startedMatch), [], [])
  {
    p := Patch(revision, None, None, None, None, None, None, None, [], []);
    if prev.state != next.state {
      p := p.(state := Some(next.state));
    }
    if prev.owner != next.owner {
      p := p.(owner := Some(next.owner));
    }
    if prev.mode != next.mode {
      p := p.(mode := Some(next.mode));
    }
    if prev.config != next.config {
      p := p.(config := Some(next.config));
    }
    if prev.activeMatch != next.activeMatch {
      p := p.(activeMatch := Some(next.activeMatch));
    }
    if prev.lastMatch != next.lastMatch {
      p := p.(lastMatch := Some(next.lastMatch));
    }
    if prev.startedMatch != next.startedMatch {
      p := p.(startedMatch := Some(next.startedMatch));
    }
  }

  method LobbyPatch(prev: Lobby, next: Lobby, revision: int) returns (p: Patch)
    ensures IsPatch(prev, next, revision, p)
  {
    hide Table, Changed, Differs;
    p := DiffFields(prev.fields, next.fields, revision);
    var prevMembers: map<string, Member>, nextMembers: map<string, Member> := map[], map[];
    EmptyTables(Table(prev.members));
    for i := 0 to |prev.members|
      invariant prevMembers == Table(prev.members[..i])
    {
      TableOfOneMore(prev.members, i);
      prevMembers := prevMembers[prev.members[i].userId := prev.members[i]];
    }
    assert prev.members[..|prev.members|] == prev.members;
    var upserts := [];
    for i := 0 to |next.members|
      invariant nextMembers == Table(next.members[..i])
      invariant upserts == Changed(prevMembers, next.members[..i])
    {
      var m := next.members[i];
      TableOfOneMore(next.members, i);
      ChangedOneMore(prevMembers, next.members, i);
      nextMembers := nextMembers[m.userId := m];
      if Differs(prevMembers, m) {
        upserts := upserts + [m];
      }
    }
    assert next.members[..|next.members|] == next.members;
    var removes := Gone(prevMembers, nextMembers);
    p := p.(upserts := upserts, removes := removes);
  }

  lemma EmptyTables(prev: map<string, Member>)
    ensures Table([]) == map[] && Changed(prev, []) == []
  {
  }

  /** The ids that are gone, in the order the map happens to give them. */
  method Gone(prev: map<string, Member>, next: map<string, Member>) returns (removes: seq<string>)
    ensures Lists(removes, prev.Keys - next.Keys)
  {
    hide Lists;
    var todo := prev.Keys;
    removes := [];
    ListsNothing<string>();
    assert prev.Keys - next.Keys - todo == {};
    while todo != {}
      invariant todo <= prev.Keys && Lists(removes, prev.Keys - next.Keys - todo)
      decreases todo
    {
      var id :| id in todo;
      ghost var done := prev.Keys - next.Keys - todo;
      assert prev.Keys - next.Keys - (todo - {id}) == if id in next then done else done + {id};
      if id !in next {
        ListsOneMore(removes, done, id);
        removes := removes + [id];
      }
      todo := todo - {id};
    }
    assert prev.Keys - next.Keys - {} == prev.Keys - next.Keys;
  }

  // ----- applying a patch -----------------------------------------------------

  /** A lobby as a reader of the stream knows it. */
  datatype View = View(fields: Fields, members: map<string, Member>)

  function ViewOf(l: Lobby): View {
    View(l.fields, Table(l.members))
  }

  function AppliedFields(f: Fields, p: Patch): Fields {
    Fields(p.state.GetOr(f.state), p.owner.GetOr(f.owner), p.mode.GetOr(f.mode), p.config.GetOr(f.config),
           p.activeMatch.GetOr(f.activeMatch), p.lastMatch.GetOr(f.lastMatch), p.startedMatch.GetOr(f.startedMatch))
  }

  /** Removals first, then the upserts replace or add their members. */
  function Applied(v: View, p: Patch): View {
    View(AppliedFields(v.fields, p), (map u | u in v.members && u !in p.removes :: v.members[u]) + Table(p.upserts))
  }

  /** The one member a patch can miss: an all-zero one the previous snapshot did not have. */
  predicate MissesZero(prev: Lobby, next: Lobby) {
    ZERO_MEMBER in next.members && "" !in Table(prev.members)
  }

  lemma FieldsReplay(prev: Lobby, next: Lobby, revision: int, p: Patch)
    requires IsPatch(prev, next, revision, p)
    ensures AppliedFields(prev.fields, p) == next.fields
  {
    hide Table, Changed, Lists;
  }

  /** Changed members of a distinct list are distinct, so their table holds each of them. */
  lemma {:induction false} ChangedDistinct(prev: map<string, Member>, members: seq<Member>)
    requires Distinct(members)
    ensures Distinct(Changed(prev, members))
  {
    if members != [] {
      var before, last := members[..|members| - 1], members[|members| - 1];
      ChangedDistinct(prev, before);
      assert forall m <- Changed(prev, before) :: m.userId != last.userId;
    }
  }

  lemma UpsertTable(prev: map<string, Member>, members: seq<Member>, m: Member)
    requires Distinct(members) && m in members
    ensures var t := Table(Changed(prev, members));
            if Differs(prev, m) then m.userId in t && t[m.userId] == m else m.userId !in t
  {
    hide Table;
    ChangedDistinct(prev, members);
    if Differs(prev, m) {
      TableHolds(Changed(prev, members), m);
    } else if m.userId in Table(Changed(prev, members)) {
      var n := Table(Changed(prev, members))[m.userId];
      TableHolds(members, n);
      TableHolds(members, m);
      assert false;
    }
  }

  /** A member of the next snapshot after the patch. */
  lemma MemberReplays(prev: Lobby, next: Lobby, revision: int, p: Patch, m: Member)
    requires IsPatch(prev, next, revision, p) && Distinct(next.members) && m in next.members
    ensures var r := Applied(ViewOf(prev), p).members;
            if m == ZERO_MEMBER && MissesZero(prev, next) then m.userId !in r else m.userId in r && r[m.userId] == m
  {
    hide Table, Changed, Distinct;
    UpsertTable(Table(prev.members), next.members, m);
  }

  /** A patch replays the next snapshot exactly, unless it misses the all-zero member. */
  lemma PatchReplays(prev: Lobby, next: Lobby, revision: int, p: Patch)
    requires IsPatch(prev, next, revision, p) && Distinct(next.members)
    ensures Applied(ViewOf(prev), p).fields == next.fields
    ensures Applied(ViewOf(prev), p) == ViewOf(next) <==> !MissesZero(prev, next)
  {
    hide Table, Changed, Distinct, IsPatch;
    FieldsReplay(prev, next, revision, p);
    var r, t := Applied(ViewOf(prev), p).members, Table(next.members);
    forall m <- next.members
      ensures if m == ZERO_MEMBER && MissesZero(prev, next) then m.userId !in r else m.userId in r && r[m.userId] == m
    {
      MemberReplays(prev, next, revision, p, m);
    }
    forall u <- r ensures u in t {
      KnownIds(prev, next, revision, p, u);
    }
    if !MissesZero(prev, next) {
      forall u <- t ensures u in r && r[u] == t[u] {
        assert t[u] in next.members;
      }
      assert r == t;
    } else {
      assert "" in t && "" !in r;
    }
  }

  /** The patch leaves nobody who is not in the next snapshot. */
  lemma KnownIds(prev: Lobby, next: Lobby, revision: int, p: Patch, u: string)
    requires IsPatch(prev, next, revision, p)
    ensures u in Applied(ViewOf(prev), p).members ==> u in Table(next.members)
  {
    hide Table, Changed;
    if u in Table(p.upserts) {
      var m :| m in p.upserts && m.userId == u;
      assert m in next.members;
    }
  }

  /** No id is both upserted and removed. */
  lemma UpsertsAndRemovesDisjoint(prev: Lobby, next: Lobby, revision: int, p: Patch)
    requires IsPatch(prev, next, revision, p)
    ensures forall m <- p.upserts :: m.userId !in p.removes
  {
    hide Table, Changed;
    forall m <- p.upserts ensures m.userId in Table(next.members) {
      assert m in next.members;
    }
  }

  /** A patch is empty exactly when nothing it could carry has changed. */
  predicate Empty(p: Patch) {
    && p.state.None? && p.owner.None? && p.mode.None? && p.config.None? && p.activeMatch.None? && p.lastMatch.None? && p.startedMatch.None?
    && p.upserts == [] && p.removes == []
  }

  lemma HasFirst<T>(s: seq<T>)
    ensures s == [] || exists x :: x in s
  {
    if s != [] { assert s[0] in s; }
  }

  lemma EmptyMeansSame(prev: Lobby, next: Lobby, revision: int, p: Patch)
    requires IsPatch(prev, next, revision, p) && Distinct(prev.members) && Distinct(next.members) && !MissesZero(prev, next)
    ensures Empty(p) <==> ViewOf(prev) == ViewOf(next)
  {
    hide Table, Changed, Distinct;
    PatchReplays(prev, next, revision, p);
    if Empty(p) {
      EmptyTables(Table(prev.members));
      assert Applied(ViewOf(prev), p) == ViewOf(prev);
    }
    if ViewOf(prev) == ViewOf(next) {
      forall m <- next.members ensures !Differs(Table(prev.members), m) {
        TableHolds(next.members, m);
      }
      HasFirst(p.upserts);
      HasFirst(p.removes);
    }
  }
}
