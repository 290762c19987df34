/**
 * The web client's copy of a lobby. Members travel as JSON objects in which
 * optional keys with an empty value are left out, and the client merges an
 * upserted object over the one it holds.
 */
module LobbyClient {
  import opened Common
  import opened LobbyPatches

  datatype Key =
    | UserIdKey | DisplayNameKey | AvatarKey | GuestKey | AdminKey | BadgeKey
    | TeamKey | RoleKey | ReadyKey | ConnectedKey | PresenceKey | JoinedKey

  datatype Value = Text(s: string) | Flag(b: bool) | BadgeValue(badge: Option<Badge>) | Instant(t: int)

  type Json = map<Key, Value>

  function FieldOf(m: Member, k: Key): Value {
    match k
    case UserIdKey => Text(m.userId)
    case DisplayNameKey => Text(m.displayName)
    case AvatarKey => Text(m.avatarUrl)
    case GuestKey => Flag(m.isGuest)
    case AdminKey => Flag(m.isAdmin)
    case BadgeKey => BadgeValue(m.badge)
    case TeamKey => Text(m.teamId)
    case RoleKey => Text(m.role)
    case ReadyKey => Flag(m.ready)
    case ConnectedKey => Flag(m.connected)
    case PresenceKey => Text(m.presence)
    case JoinedKey => Instant(m.joinedAt)
  }

  predicate Optional(k: Key) {
    k.AvatarKey? || k.GuestKey? || k.AdminKey? || k.BadgeKey? || k.TeamKey? || k.ConnectedKey? || k.PresenceKey?
  }

  /** What is left out on the wire: an optional key with its empty value. */
  predicate OnWire(m: Member, k: Key) {
    !Optional(k) || FieldOf(m, k) != FieldOf(ZERO_MEMBER, k)
  }

  function Encode(m: Member): (o: Json)
    ensures forall k :: k in o <==> OnWire(m, k)
  {
    map k: Key | OnWire(m, k) :: FieldOf(m, k)
  }

  /** A missing key reads as empty. */
  function Read(o: Json, k: Key): Value {
    if k in o then o[k] else FieldOf(ZERO_MEMBER, k)
  }

  ghost predicate Reads(o: Json, m: Member) {
    forall k: Key :: Read(o, k) == FieldOf(m, k)
  }

  /** Leaving empty values out loses nothing, and different members differ on the wire. */
  lemma EncodeReads(m: Member, n: Member)
    ensures Reads(Encode(m), m)
    ensures Encode(m) == Encode(n) ==> m == n
  {
    if Encode(m) == Encode(n) {
      forall k: Key ensures FieldOf(m, k) == FieldOf(n, k) {
        assert Read(Encode(m), k) == Read(Encode(n), k);
      }
      SameFields(m, n);
    }
  }

  lemma SameFields(m: Member, n: Member)
    requires forall k: Key :: FieldOf(m, k) == FieldOf(n, k)
    ensures m == n
  {
    assert FieldOf(m, UserIdKey) == FieldOf(n, UserIdKey) && FieldOf(m, DisplayNameKey) == FieldOf(n, DisplayNameKey);
    assert FieldOf(m, AvatarKey) == FieldOf(n, AvatarKey) && FieldOf(m, GuestKey) == FieldOf(n, GuestKey);
    assert FieldOf(m, AdminKey) == FieldOf(n, AdminKey) && FieldOf(m, BadgeKey) == FieldOf(n, BadgeKey);
    assert FieldOf(m, TeamKey) == FieldOf(n, TeamKey) && FieldOf(m, RoleKey) == FieldOf(n, RoleKey);
    assert FieldOf(m, ReadyKey) == FieldOf(n, ReadyKey) && FieldOf(m, ConnectedKey) == FieldOf(n, ConnectedKey);
    assert FieldOf(m, PresenceKey) == FieldOf(n, PresenceKey) && FieldOf(m, JoinedKey) == FieldOf(n, JoinedKey);
  }

  // ----- merging ----------------------------------------------------------------

  /** Every key the old member had on the wire, the new one has too. */
  ghost predicate KeepsKeys(before: Member, after: Member) {
    forall k :: OnWire(before, k) ==> OnWire(after, k)
  }

  /** Merging is right exactly when no key went away. */
  lemma MergeExactly(before: Member, after: Member)
    ensures Reads(Encode(before) + Encode(after), after) <==> KeepsKeys(before, after)
    ensures KeepsKeys(before, after) ==> Encode(before) + Encode(after) == Encode(after)
  {
    hide FieldOf, Optional;
    var o := Encode(before) + Encode(after);
    if Reads(o, after) {
      forall k | OnWire(before, k) ensures OnWire(after, k) {
        assert Read(o, k) == FieldOf(after, k);
      }
    }
  }

  /** A member once shown as connected stays so, whatever is merged in. */
  lemma ConnectedSticks(o: Json, m: Member)
    requires Read(o, ConnectedKey) == Flag(true)
    ensures Read(o + Encode(m), ConnectedKey) == Flag(true)
  {
  }

  /** So the client goes wrong as soon as someone's connection drops. */
  lemma DropIsMissed(before: Member, after: Member)
    requires before.connected && !after.connected
    ensures !KeepsKeys(before, after) && !Reads(Encode(before) + Encode(after), after)
  {
    assert OnWire(before, ConnectedKey) && !OnWire(after, ConnectedKey);
    MergeExactly(before, after);
  }

  // ----- the client ---------------------------------------------------------------

  datatype Client = Client(fields: Fields, members: map<string, Json>)

  function Wire(table: map<string, Member>): map<string, Json> {
    map u | u in table :: Encode(table[u])
  }

  /** The client's copy of a lobby it has just received whole. */
  function Loaded(l: Lobby): Client {
    Client(l.fields, Wire(Table(l.members)))
  }

  function Merged(members: map<string, Json>, upserts: seq<Member>): map<string, Json> {
    if upserts == [] then members
    else
      var done, m := Merged(members, upserts[..|upserts| - 1]), upserts[|upserts| - 1];
      done[m.userId := (if m.userId in done then done[m.userId] else map[]) + Encode(m)]
  }

  function Kept(members: map<string, Json>, removes: seq<string>): map<string, Json> {
    map u | u in members && u !in removes :: members[u]
  }

  function ClientApplied(c: Client, p: Patch): Client {
    Client(AppliedFields(c.fields, p), Merged(Kept(c.members, p.removes), p.upserts))
  }

  method ApplyLobbyPatch(c: Client, p: Patch) returns (r: Client)
    ensures r == ClientApplied(c, p)
  {
    r := Client(AppliedFields(c.fields, p), c.members);
    if p.upserts != [] || p.removes != [] {
      var members := map u | u in c.members && u !in p.removes :: c.members[u];
      for i := 0 to |p.upserts|
        invariant members == Merged(Kept(c.members, p.removes), p.upserts[..i])
      {
        var m := p.upserts[i];
        assert p.upserts[..i + 1][..i] == p.upserts[..i];
        members := members[m.userId := (if m.userId in members then members[m.userId] else map[]) + Encode(m)];
      }
      assert p.upserts[..|p.upserts|] == p.upserts;
      r := r.(members := members);
    } else {
      assert Kept(c.members, p.removes) == c.members;
    }
  }

  function MergedEntry(members: map<string, Json>, m: Member): Json {
    (if m.userId in members then members[m.userId] else map[]) + Encode(m)
  }

  function Overlaid(members: map<string, Json>, t: map<string, Member>): map<string, Json>
    requires forall u <- t :: t[u].userId == u
  {
    map u | u in members.Keys + t.Keys :: if u in t then MergedEntry(members, t[u]) else members[u]
  }

  /** With distinct upserts, each member is merged at most once. */
  lemma {:induction false} MergedOnce(members: map<string, Json>, upserts: seq<Member>)
    requires Distinct(upserts)
    ensures Merged(members, upserts) == Overlaid(members, Table(upserts))
  {
    hide Encode, MergedEntry;
    if upserts != [] {
      var before, m := upserts[..|upserts| - 1], upserts[|upserts| - 1];
      MergedOnce(members, before);
      OverlaidOneMore(members, Table(before), m);
    }
  }

  lemma OverlaidOneMore(members: map<string, Json>, t: map<string, Member>, m: Member)
    requires forall u <- t :: t[u].userId == u
    requires m.userId !in t
    ensures var done := Overlaid(members, t);
            Overlaid(members, t[m.userId := m]) == done[m.userId := (if m.userId in done then done[m.userId] else map[]) + Encode(m)]
  {
    hide Encode;
  }

  // ----- one patch ------------------------------------------------------------------

  /** The client reads every member as the server has it. */
  ghost predicate Shows(c: Client, l: Lobby) {
    var t := Table(l.members);
    && c.fields == l.fields
    && c.members.Keys == t.Keys
    && forall u <- t :: Reads(c.members[u], t[u])
  }

  /** Nobody who stays loses a key. */
  ghost predicate AllKeepKeys(prev: Lobby, next: Lobby) {
    var s, t := Table(prev.members), Table(next.members);
    forall u <- t | u in s :: KeepsKeys(s[u], t[u])
  }

  /** One member's object after the patch. */
  lemma MergedMember(prev: Lobby, next: Lobby, revision: int, p: Patch, u: string)
    requires IsPatch(prev, next, revision, p) && Distinct(next.members) && !MissesZero(prev, next)
    requires u in Table(next.members)
    ensures var s, t, r := Table(prev.members), Table(next.members), ClientApplied(Loaded(prev), p).members;
            u in r && r[u] == if u in s && s[u] != t[u] then Encode(s[u]) + Encode(t[u]) else Encode(t[u])
  {
    hide Table, Changed, Distinct, Merged, Encode, MissesZero, Overlaid, Kept, Wire, Differs;
    var s, t := Table(prev.members), Table(next.members);
    ChangedDistinct(s, next.members);
    MergedOnce(Kept(Wire(s), p.removes), p.upserts);
    UpsertTable(s, next.members, t[u]);
    FoundUnlessZero(prev, next, t[u]);
    OverlaidAt(s, p.removes, Table(p.upserts), u);
  }

  /** The object the client ends up with, by where the member came from. */
  lemma OverlaidAt(s: map<string, Member>, removes: seq<string>, sent: map<string, Member>, u: string)
    requires forall v <- sent :: sent[v].userId == v
    requires u in sent || (u in s && u !in removes)
    ensures var r := Overlaid(Kept(Wire(s), removes), sent);
            u in r && r[u] == if u !in sent then Encode(s[u])
                              else if u in s && u !in removes then Encode(s[u]) + Encode(sent[u]) else Encode(sent[u])
  {
    hide Encode;
    if u in sent { assert map[] + Encode(sent[u]) == Encode(sent[u]); }
  }

  lemma FoundUnlessZero(prev: Lobby, next: Lobby, m: Member)
    requires !MissesZero(prev, next) && m in next.members
    ensures !Differs(Table(prev.members), m) ==> m.userId in Table(prev.members) && Table(prev.members)[m.userId] == m
    ensures Differs(Table(prev.members), m) && m.userId in Table(prev.members) ==> Table(prev.members)[m.userId] != m
  {
    hide Table;
  }

  lemma MergedKeys(prev: Lobby, next: Lobby, revision: int, p: Patch)
    requires IsPatch(prev, next, revision, p) && Distinct(next.members) && !MissesZero(prev, next)
    ensures ClientApplied(Loaded(prev), p).members.Keys == Table(next.members).Keys
  {
    hide Table, Changed, Distinct, Merged, Encode, Lists, MissesZero;
    ChangedDistinct(Table(prev.members), next.members);
    MergedOnce(Kept(Wire(Table(prev.members)), p.removes), p.upserts);
    PatchReplays(prev, next, revision, p);
    assert ClientApplied(Loaded(prev), p).members.Keys == Applied(ViewOf(prev), p).members.Keys;
  }

  /**
   * From an exact copy, the client shows the next snapshot exactly when
   * nobody who stays lost a key; and then its copy is exact again.
   */
  lemma ClientExactly(prev: Lobby, next: Lobby, revision: int, p: Patch)
    requires IsPatch(prev, next, revision, p) && Distinct(next.members) && !MissesZero(prev, next)
    ensures Shows(ClientApplied(Loaded(prev), p), next) <==> AllKeepKeys(prev, next)
    ensures AllKeepKeys(prev, next) ==> ClientApplied(Loaded(prev), p) == Loaded(next)
  {
    hide Table, Encode, IsPatch, Distinct, Merged, Kept, KeepsKeys, Reads, MissesZero;
    var s, t, r := Table(prev.members), Table(next.members), ClientApplied(Loaded(prev), p);
    FieldsReplay(prev, next, revision, p);
    MergedKeys(prev, next, revision, p);
    forall u <- t
      ensures u in r.members
      ensures Reads(r.members[u], t[u]) <==> u in s ==> KeepsKeys(s[u], t[u])
      ensures (u in s ==> KeepsKeys(s[u], t[u])) ==> r.members[u] == Encode(t[u])
    {
      MergedMember(prev, next, revision, p, u);
      EncodeReads(t[u], t[u]);
      if u in s {
        MergeExactly(s[u], t[u]);
        Unchanged(t[u]);
      }
    }
  }

  lemma Unchanged(m: Member)
    ensures KeepsKeys(m, m)
  {
  }

  // ----- a run of patches -----------------------------------------------------------

  /** Each patch takes one snapshot to the next. */
  ghost predicate PatchesOf(snaps: seq<Lobby>, patches: seq<Patch>) {
    && |snaps| == |patches| + 1
    && forall i: nat | i < |patches| :: PatchStep(snaps, patches, i)
  }

  ghost predicate PatchStep(snaps: seq<Lobby>, patches: seq<Patch>, i: nat)
    requires i < |patches| < |snaps|
  {
    IsPatch(snaps[i], snaps[i + 1], i + 2, patches[i]) && Distinct(snaps[i + 1].members) && !MissesZero(snaps[i], snaps[i + 1])
  }

  lemma FirstPatches(snaps: seq<Lobby>, patches: seq<Patch>, n: nat)
    requires PatchesOf(snaps, patches) && n <= |patches|
    ensures PatchesOf(snaps[..n + 1], patches[..n])
  {
    hide IsPatch, Distinct, MissesZero;
    var s, p := snaps[..n + 1], patches[..n];
    forall i: nat | i < n ensures PatchStep(s, p, i) {
      assert PatchStep(snaps, patches, i);
    }
  }

  function ClientAfter(c: Client, patches: seq<Patch>): Client {
    if patches == [] then c
    else ClientApplied(ClientAfter(c, patches[..|patches| - 1]), patches[|patches| - 1])
  }

  /** As long as nobody loses a key the client's copy is the server's. */
  lemma {:induction false} ClientFollows(snaps: seq<Lobby>, patches: seq<Patch>)
    requires PatchesOf(snaps, patches)
    requires forall i | 0 <= i < |patches| :: AllKeepKeys(snaps[i], snaps[i + 1])
    ensures ClientAfter(Loaded(snaps[0]), patches) == Loaded(snaps[|patches|])
  {
    hide AllKeepKeys, IsPatch, Distinct, MissesZero, Loaded, ClientApplied;
    if patches != [] {
      var n := |patches| - 1;
      FirstPatches(snaps, patches, n);
      ClientFollows(snaps[..n + 1], patches[..n]);
      assert PatchStep(snaps, patches, n);
      ClientExactly(snaps[n], snaps[n + 1], n + 2, patches[n]);
    }
  }

  /** The first patch that takes a key away leaves the client showing something else. */
  lemma ClientStrays(snaps: seq<Lobby>, patches: seq<Patch>)
    requires PatchesOf(snaps, patches) && patches != []
    requires forall i | 0 <= i < |patches| - 1 :: AllKeepKeys(snaps[i], snaps[i + 1])
    ensures Shows(ClientAfter(Loaded(snaps[0]), patches), snaps[|patches|]) <==> AllKeepKeys(snaps[|patches| - 1], snaps[|patches|])
  {
    hide AllKeepKeys, IsPatch, Distinct, MissesZero, Loaded, ClientApplied, Shows;
    var n := |patches| - 1;
    FirstPatches(snaps, patches, n);
    ClientFollows(snaps[..n + 1], patches[..n]);
    assert PatchStep(snaps, patches, n);
    ClientExactly(snaps[n], snaps[n + 1], n + 2, patches[n]);
  }
}
