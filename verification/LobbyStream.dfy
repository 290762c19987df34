/** One websocket that streams a lobby: a snapshot first, then a patch for every change. */
module LobbyStream {
  import opened Common
  import opened LobbyPatches
  import opened LobbyClient

  datatype Message = Whole(lobby: Lobby) | Change(patch: Patch) | Assigned(payload: string) | Error(text: string)

  const OPEN := "open"
  const IN_MATCH := "in_match"
  const STARTED := "started"
  const UNAVAILABLE := "Lobby unavailable"
  const LEFT := "You left this lobby"

  predicate HasMember(l: Lobby, user: string) {
    exists m <- l.members :: m.userId == user
  }

  /** The patches on the wire, in order. */
  function PatchesIn(outbox: seq<Message>): seq<Patch> {
    if outbox == [] then []
    else
      var last := outbox[|outbox| - 1];
      PatchesIn(outbox[..|outbox| - 1]) + if last.Change? then [last.patch] else []
  }

  lemma OneMoreMessage(outbox: seq<Message>, m: Message)
    ensures PatchesIn(outbox + [m]) == PatchesIn(outbox) + if m.Change? then [m.patch] else []
  {
    assert (outbox + [m])[..|outbox|] == outbox;
  }

  /** What a reader who applies every patch knows. */
  function ViewAfter(v: View, patches: seq<Patch>): View {
    if patches == [] then v
    else Applied(ViewAfter(v, patches[..|patches| - 1]), patches[|patches| - 1])
  }

  /** Patches between the snapshots of a run replay to the last of them. */
  lemma {:induction false} ViewFollows(snaps: seq<Lobby>, patches: seq<Patch>)
    requires PatchesOf(snaps, patches)
    ensures ViewAfter(ViewOf(snaps[0]), patches) == ViewOf(snaps[|patches|])
  {
    hide IsPatch, Distinct, MissesZero, ViewOf, Applied;
    if patches != [] {
      var n := |patches| - 1;
      FirstPatches(snaps, patches, n);
      ViewFollows(snaps[..n + 1], patches[..n]);
      assert PatchStep(snaps, patches, n);
      PatchReplays(snaps[n], snaps[n + 1], n + 2, patches[n]);
    }
  }

  lemma OneMorePatch(snaps: seq<Lobby>, patches: seq<Patch>, next: Lobby, p: Patch)
    requires PatchesOf(snaps, patches)
    requires IsPatch(snaps[|patches|], next, |patches| + 2, p) && Distinct(next.members) && !MissesZero(snaps[|patches|], next)
    ensures PatchesOf(snaps + [next], patches + [p])
  {
    hide IsPatch, Distinct, MissesZero;
    var s, q := snaps + [next], patches + [p];
    forall i: nat | i < |q| ensures PatchStep(s, q, i) {
      if i < |patches| { assert PatchStep(snaps, patches, i); }
    }
  }

  /** The lobby's current match, as the stream looks it up. */
  function CurrentMatch(f: Fields): string {
    if f.activeMatch == "" then f.startedMatch else f.activeMatch
  }

  /** The assignment a refresh announces, if the lobby is in a match that has one. */
  function Assignment(f: Fields, assignment: string -> Option<string>): Option<string> {
    if (f.state == IN_MATCH || f.state == STARTED) && CurrentMatch(f) != "" then assignment(CurrentMatch(f)) else None
  }

  class Connection {
    const user: string
    var last: Lobby
    var revision: int
    var outbox: seq<Message>
    var live: bool
    ghost var history: seq<Lobby>

    /** Everything sent, from the first snapshot on, replays to the lobby last seen. */
    ghost predicate Valid()
      reads this
    {
      && (live ==> history != [])
      && (history != [] ==>
        && outbox != [] && outbox[0] == Whole(history[0]) && history[|history| - 1] == last
        && PatchesOf(history, PatchesIn(outbox))
        && revision == |history|)
    }

    /** The client's revision, view, and copy, whatever was sent. */
    lemma Replays()
      requires Valid() && history != []
      ensures var sent := PatchesIn(outbox);
              && revision == |sent| + 1
              && (forall i | 0 <= i < |sent| :: sent[i].revision == i + 2)
              && ViewAfter(ViewOf(outbox[0].lobby), sent) == ViewOf(last)
    {
      hide Distinct, MissesZero, ViewOf, Applied;
      ViewFollows(history, PatchesIn(outbox));
      forall i | 0 <= i < |PatchesIn(outbox)| ensures PatchesIn(outbox)[i].revision == i + 2 {
        assert PatchStep(history, PatchesIn(outbox), i);
      }
    }

    /** The web client keeps an exact copy if no member who stays ever loses a key. */
    lemma ClientAgrees()
      requires Valid() && history != []
      requires forall i | 0 <= i < |history| - 1 :: AllKeepKeys(history[i], history[i + 1])
      ensures ClientAfter(Loaded(outbox[0].lobby), PatchesIn(outbox)) == Loaded(last)
    {
      hide AllKeepKeys, IsPatch, Distinct, MissesZero, Loaded, ClientApplied;
      ClientFollows(history, PatchesIn(outbox));
    }

    constructor (user: string, snap: Option<Lobby>)
      ensures Valid()
      ensures live == (snap.Some? && HasMember(snap.value, user))
      ensures live == (history != [])
      ensures live ==> last == snap.value && outbox == [Whole(snap.value)] && revision == 1 && history == [snap.value]
      ensures !live ==> outbox == [Error(if snap.None? then UNAVAILABLE else LEFT)]
    {
      this.user := user;
      revision := 1;
      if snap.None? {
        last, outbox, live, history := Lobby("", "", "", 0, 0, Fields("", "", "", Config("", "", "", 0, 0), "", "", ""), []),
          [Error(UNAVAILABLE)], false, [];
      } else if !HasMember(snap.value, user) {
        last, outbox, live, history := snap.value, [Error(LEFT)], false, [];
      } else {
        last, outbox, live, history := snap.value, [Whole(snap.value)], true, [snap.value];
        OneMoreMessage([], Whole(snap.value));
        assert [] + [Whole(snap.value)] == [Whole(snap.value)];
      }
    }

    method Send(m: Message)
      modifies `outbox
      ensures outbox == old(outbox) + [m]
      ensures PatchesIn(outbox) == if m.Change? then old(PatchesIn(outbox)) + [m.patch] else old(PatchesIn(outbox))
    {
      OneMoreMessage(outbox, m);
      outbox := outbox + [m];
    }

    /** A last message that changes nothing in the lobby. */
    method Close(m: Message)
      requires Valid() && live && !m.Change?
      modifies `outbox, `live
      ensures Valid() && !live && outbox == old(outbox) + [m]
    {
      hide IsPatch, Distinct, MissesZero;
      Send(m);
      live := false;
    }

    /** Send the difference to the next snapshot, if there is one. */
    method SendChange(next: Lobby)
      requires Valid() && live && Distinct(next.members) && !MissesZero(last, next)
      modifies `outbox, `last, `revision, `history
      ensures Valid() && last == next
      ensures next == old(last) ==> outbox == old(outbox) && revision == old(revision) && history == old(history)
      ensures next != old(last) ==> revision == old(revision) + 1 && history == old(history) + [next]
      ensures next != old(last) ==> exists p :: outbox == old(outbox) + [Change(p)] && IsPatch(old(last), next, revision, p)
    {
      hide IsPatch, Distinct, MissesZero;
      if next != last {
        revision := revision + 1;
        var p := LobbyPatch(last, next, revision);
        OneMorePatch(history, PatchesIn(outbox), next, p);
        Send(Change(p));
        last := next;
        history := history + [next];
      }
    }

    /** One round of the refresh loop; the connection closes when it returns false. */
    method Refresh(snap: Option<Lobby>, assignment: string -> Option<string>) returns (again: bool)
      requires Valid() && live
      requires snap.Some? && HasMember(snap.value, user) ==> Distinct(snap.value.members) && !MissesZero(last, snap.value)
      modifies this
      ensures Valid() && live == again && old(history) <= history
      ensures again == (snap.Some? && HasMember(snap.value, user) && snap.value.fields.state == OPEN)
      ensures snap.None? ==> outbox == old(outbox) + [Error(UNAVAILABLE)]
      ensures snap.Some? && !HasMember(snap.value, user) ==> outbox == old(outbox) + [Error(LEFT)]
      ensures snap.Some? && HasMember(snap.value, user) ==>
                var next := snap.value;
                var told := Assignment(next.fields, assignment);
                var tail := if told.Some? then [Assigned(told.value)] else [];
                && last == next
                && if next == old(last) then outbox == old(outbox) + tail
                   else exists p :: outbox == old(outbox) + [Change(p)] + tail && IsPatch(old(last), next, old(revision) + 1, p)
    {
      hide IsPatch, Distinct, MissesZero, PatchesIn, PatchesOf, HasMember;
      if snap.None? {
        Close(Error(UNAVAILABLE));
        return false;
      }
      var next := snap.value;
      if !HasMember(next, user) {
        Close(Error(LEFT));
        return false;
      }
      SendChange(next);
      var current := next.fields.activeMatch;
      if current == "" {
        current := next.fields.startedMatch;
      }
      if (next.fields.state == IN_MATCH || next.fields.state == STARTED) && current != "" {
        var payload := assignment(current);
        if payload.Some? {
          Close(Assigned(payload.value));
          return false;
        }
      }
      live := next.fields.state == OPEN;
      return live;
    }
  }
}
