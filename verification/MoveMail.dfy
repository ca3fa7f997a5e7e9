/**
 Bulk moves: the chunked commands of `move_messages` (src/email/imap_writer.py) and what `_reflect_move`
 (src/services/write_service.py) records of them.
 */
module MoveMail {
  import opened Common
  import opened UidSets

  // ---- COPYUID ------------------------------------------------------------------------------

  /** The COPYUID of one response, if it has one: destination validity, source set, destination set. */
  datatype Copied = NoCopyUid | CopyUid(validity: nat, source: string, destination: string)

  /** dict(zip(a, b)): position by position, as far as both go. */
  function Paired(a: seq<nat>, b: seq<nat>, n: nat): map<nat, nat>
    requires n <= |a| && n <= |b|
  {
    if n == 0 then map[] else Paired(a, b, n - 1)[a[n - 1] := b[n - 1]]
  }

  function Zip(a: seq<nat>, b: seq<nat>): map<nat, nat> { Paired(a, b, if |a| <= |b| then |a| else |b|) }

  /** `parse_copyuid`. */
  function ParseCopyUid(c: Copied): (Option<nat>, map<nat, nat>) {
    match c
    case NoCopyUid => (None, map[])
    case CopyUid(validity, source, destination) => (Some(validity), Zip(Expand(source), Expand(destination)))
  }

  lemma {:induction false} PairedAt(a: seq<nat>, b: seq<nat>, n: nat, i: nat)
    requires i < n <= |a| && n <= |b| && Distinct(a)
    ensures a[i] in Paired(a, b, n) && Paired(a, b, n)[a[i]] == b[i]
  {
    if i < n - 1 {
      PairedAt(a, b, n - 1, i);
    }
  }

  lemma {:induction false} PairedKeys(a: seq<nat>, b: seq<nat>, n: nat)
    requires n <= |a| && n <= |b|
    ensures forall u :: u in Paired(a, b, n) ==> u in a[..n]
  {
    if n > 0 {
      PairedKeys(a, b, n - 1);
      assert a[..n] == a[..n - 1] + [a[n - 1]];
    }
  }

  /** However the server writes its two sets, source i is paired with destination i, under the response's own validity. */
  lemma CopyUidPairs(validity: nat, source: seq<Item>, destination: seq<Item>, i: nat)
    requires source != [] && destination != [] && Distinct(AllDenoted(source))
    requires i < |AllDenoted(source)| && |AllDenoted(source)| == |AllDenoted(destination)|
    ensures var (v, pairs) := ParseCopyUid(CopyUid(validity, Render(source), Render(destination)));
            && v == Some(validity) && AllDenoted(source)[i] in pairs && pairs[AllDenoted(source)[i]] == AllDenoted(destination)[i]
            && forall u :: u in pairs ==> u in AllDenoted(source)
  {
    ExpandRender(source);
    ExpandRender(destination);
    var a, b := AllDenoted(source), AllDenoted(destination);
    PairedAt(a, b, |a|, i);
    PairedKeys(a, b, |a|);
    assert a[..|a|] == a;
  }

  // ---- chunks -------------------------------------------------------------------------------

  /** `uid_chunks`, for a size of at least one. */
  function UidChunks(uids: seq<nat>, size: nat): seq<seq<nat>>
    requires size > 0
  {
    if uids == [] then []
    else if |uids| <= size then [uids]
    else [uids[..size]] + UidChunks(uids[size..], size)
  }

  function Flatten(chunks: seq<seq<nat>>): seq<nat> {
    if chunks == [] then [] else chunks[0] + Flatten(chunks[1..])
  }

  lemma {:induction false} ChunksAreTheList(uids: seq<nat>, size: nat)
    requires size > 0
    ensures Flatten(UidChunks(uids, size)) == uids
    ensures forall c :: c in UidChunks(uids, size) ==> 1 <= |c| <= size
  {
    if |uids| > size {
      ChunksAreTheList(uids[size..], size);
      assert uids == uids[..size] + uids[size..];
    }
  }

  // ---- move_messages ------------------------------------------------------------------------

  /** The server's part of one chunk: whether MOVE or COPY succeeded, its COPYUID, whether STORE succeeded. */
  datatype Answer = Answer(ok: bool, copied: Copied, stored: bool)

  type Landed = map<nat, (nat, Option<nat>)>

  /** `record`: landed.update(...). */
  function Recorded(landed: Landed, c: Copied): Landed {
    var (validity, pairs) := ParseCopyUid(c);
    landed + map u | u in pairs :: (pairs[u], validity)
  }

  function AllRecorded(answers: seq<Answer>): Landed {
    if answers == [] then map[] else Recorded(AllRecorded(answers[..|answers| - 1]), answers[|answers| - 1].copied)
  }

  /** Whether the answer to some chunk with this UID says that the message was copied and its original marked deleted. */
  ghost predicate CopiedAndMarked(chunks: seq<seq<nat>>, answers: seq<Answer>, u: nat) {
    exists k :: 0 <= k < |chunks| && k < |answers| && u in chunks[k] && answers[k].ok && answers[k].stored
  }

  /**
   None is an ImapWriteError. `answers` is what the server would say to each chunk, and `expunged` collects
   what UID EXPUNGE was asked to remove.
   */
  method MoveMessages(uids: seq<nat>, size: nat, selects: bool, hasMove: bool, hasUidPlus: bool, answers: seq<Answer>)
    returns (landed: Option<Landed>, expunged: set<nat>)
    requires size > 0 && |answers| == |UidChunks(uids, size)|
    ensures landed.Some? <==>
              (uids == [] || selects) && forall k :: 0 <= k < |answers| ==> answers[k].ok && (hasMove || answers[k].stored)
    ensures landed.Some? ==> landed.value == AllRecorded(answers)
    ensures forall u :: u in expunged ==>
              u in uids && hasUidPlus && !hasMove && CopiedAndMarked(UidChunks(uids, size), answers, u)
    ensures landed.Some? && hasUidPlus && !hasMove ==> forall u :: u in uids ==> u in expunged
  {
    var chunks := UidChunks(uids, size);
    ChunksAreTheList(uids, size);
    var so: Landed := map[];
    expunged := {};
    if uids != [] && !selects { return None, expunged; }
    for k := 0 to |chunks|
      invariant so == AllRecorded(answers[..k])
      invariant forall i :: 0 <= i < k ==> answers[i].ok && (hasMove || answers[i].stored)
      invariant if hasUidPlus && !hasMove then ExpungedUpTo(chunks, answers, k, expunged) else expunged == {}
    {
      if !answers[k].ok { return None, expunged; }
      assert answers[..k + 1][..k] == answers[..k];
      so := Recorded(so, answers[k].copied);
      if !hasMove {
        if !answers[k].stored { return None, expunged; }
        if hasUidPlus {
          OneChunkExpunged(chunks, answers, k, expunged);
          expunged := expunged + set u | u in chunks[k];
        }
      }
    }
    assert answers[..|chunks|] == answers && chunks[..|chunks|] == chunks;
    landed := Some(so);
  }

  /** The messages of the first k chunks are expunged, and no others; each was copied and marked. */
  ghost predicate ExpungedUpTo(chunks: seq<seq<nat>>, answers: seq<Answer>, k: nat, expunged: set<nat>)
    requires k <= |chunks|
  {
    && (forall u :: u in expunged <==> u in Flatten(chunks[..k]))
    && (forall u :: u in expunged ==> u in Flatten(chunks) && CopiedAndMarked(chunks, answers, u))
  }

  lemma OneChunkExpunged(chunks: seq<seq<nat>>, answers: seq<Answer>, k: nat, expunged: set<nat>)
    requires k < |chunks| == |answers| && answers[k].ok && answers[k].stored && ExpungedUpTo(chunks, answers, k, expunged)
    ensures ExpungedUpTo(chunks, answers, k + 1, expunged + set u | u in chunks[k])
  {
    OneMoreChunk(chunks, k);
    ChunkMembers(chunks, k);
  }

  lemma {:induction false} OneMoreChunk(chunks: seq<seq<nat>>, k: nat)
    requires k < |chunks|
    ensures Flatten(chunks[..k + 1]) == Flatten(chunks[..k]) + chunks[k]
  {
    if k == 0 {
      assert chunks[..1] == [chunks[0]] && chunks[..0] == [] && chunks[..1][1..] == [];
    } else {
      assert chunks[..k + 1][1..] == chunks[1..][..k] && chunks[..k][1..] == chunks[1..][..k - 1];
      OneMoreChunk(chunks[1..], k - 1);
    }
  }

  lemma {:induction false} ChunkMembers(chunks: seq<seq<nat>>, k: nat)
    requires k < |chunks|
    ensures forall u :: u in chunks[k] ==> u in Flatten(chunks)
  {
    if k > 0 {
      ChunkMembers(chunks[1..], k - 1);
    }
  }

  /** Every pair a response names is recorded, with the response's validity, unless a later response names the UID again. */
  lemma {:induction false} EveryPairIsRecorded(answers: seq<Answer>, k: nat, u: nat)
    requires k < |answers| && u in ParseCopyUid(answers[k].copied).1
    requires forall j :: k < j < |answers| ==> u !in ParseCopyUid(answers[j].copied).1
    ensures var (validity, pairs) := ParseCopyUid(answers[k].copied);
            u in AllRecorded(answers) && AllRecorded(answers)[u] == (pairs[u], validity)
    decreases |answers|
  {
    var init, last := answers[..|answers| - 1], answers[|answers| - 1];
    if k < |init| {
      assert init[k] == answers[k] && last == answers[|answers| - 1];
      EveryPairIsRecorded(init, k, u);
    }
  }

  /** A recorded destination UID and its validity come from one and the same response. */
  lemma {:induction false} RecordedFromOneResponse(answers: seq<Answer>, u: nat)
    requires u in AllRecorded(answers)
    ensures exists k :: 0 <= k < |answers| &&
              var (validity, pairs) := ParseCopyUid(answers[k].copied);
              u in pairs && AllRecorded(answers)[u] == (pairs[u], validity)
  {
    var init, last := answers[..|answers| - 1], answers[|answers| - 1];
    var (validity, pairs) := ParseCopyUid(last.copied);
    if u in pairs {
      assert answers[|answers| - 1] == last;
    } else {
      RecordedFromOneResponse(init, u);
      var k :| 0 <= k < |init| &&
        var (v, ps) := ParseCopyUid(init[k].copied); u in ps && AllRecorded(init)[u] == (ps[u], v);
      assert answers[k] == init[k];
    }
  }

  // ---- one command or many ------------------------------------------------------------------

  /** How many of these UIDs are below u. */
  function Rank(uids: seq<nat>, u: nat): nat {
    if uids == [] then 0 else (if uids[0] < u then 1 else 0) + Rank(uids[1..], u)
  }

  /** A server appends what one command moves in UID order: the destination UID of u when `next` is the first free one. */
  function MovedTo(uids: seq<nat>, next: nat, u: nat): nat { next + Rank(uids, u) }

  /** The same over one command per chunk. */
  function ChunkedTo(chunks: seq<seq<nat>>, next: nat, u: nat): nat {
    if chunks == [] then next
    else if u in chunks[0] then MovedTo(chunks[0], next, u)
    else ChunkedTo(chunks[1..], next + |chunks[0]|, u)
  }

  /** Every UID of a chunk is below every UID of a later one. */
  ghost predicate AscendingAcross(chunks: seq<seq<nat>>) {
    chunks != [] ==>
      (forall a, b :: a in chunks[0] && b in Flatten(chunks[1..]) ==> a < b) && AscendingAcross(chunks[1..])
  }

  lemma {:induction false} RankAppends(a: seq<nat>, b: seq<nat>, u: nat)
    ensures Rank(a + b, u) == Rank(a, u) + Rank(b, u)
  {
    if a == [] {
      assert a + b == b;
    } else {
      assert (a + b)[1..] == a[1..] + b;
      RankAppends(a[1..], b, u);
    }
  }

  lemma {:induction false} RankExtremes(uids: seq<nat>, u: nat)
    ensures Rank(uids, u) <= |uids|
    ensures Rank(uids, u) == |uids| <==> (forall v :: v in uids ==> v < u)
    ensures Rank(uids, u) == 0 <==> (forall v :: v in uids ==> v >= u)
  {
    if uids != [] {
      var first, rest := uids[0], uids[1..];
      RankExtremes(rest, u);
      assert first in uids && (forall v :: v in rest ==> v in uids) && (forall v :: v in uids ==> v == first || v in rest);
      assert (forall v :: v in uids ==> v < u) <==> first < u && forall v :: v in rest ==> v < u;
      assert (forall v :: v in uids ==> v >= u) <==> first >= u && forall v :: v in rest ==> v >= u;
    }
  }

  ghost predicate SameAsOneCommand(chunks: seq<seq<nat>>, next: nat) {
    forall u :: u in Flatten(chunks) ==> ChunkedTo(chunks, next, u) == MovedTo(Flatten(chunks), next, u)
  }

  /** Two parts of a list without repeats share nothing. */
  lemma NoShared(a: seq<nat>, b: seq<nat>)
    requires Distinct(a + b)
    ensures Distinct(b) && forall u :: u in a ==> u !in b
  {
    forall i, j | 0 <= i < j < |b| ensures b[i] != b[j] {
      assert (a + b)[|a| + i] == b[i] && (a + b)[|a| + j] == b[j];
    }
    forall i, j | 0 <= i < |a| && 0 <= j < |b| ensures a[i] != b[j] {
      assert (a + b)[i] == a[i] && (a + b)[|a| + j] == b[j];
    }
  }

  /** The first chunk goes where one command would put it exactly when nothing later is below it. */
  lemma FirstChunkAlike(first: seq<nat>, rest: seq<nat>, next: nat)
    requires Distinct(first + rest)
    ensures (forall u :: u in first ==> MovedTo(first, next, u) == MovedTo(first + rest, next, u))
            <==> (forall a, b :: a in first && b in rest ==> a < b)
  {
    NoShared(first, rest);
    forall u | u in first
      ensures MovedTo(first, next, u) == MovedTo(first + rest, next, u) <==> forall b :: b in rest ==> u < b
    {
      RankAppends(first, rest, u);
      RankExtremes(rest, u);
    }
  }

  lemma RestAlike(first: seq<nat>, rest: seq<nat>, next: nat, u: nat)
    requires forall a, b :: a in first && b in rest ==> a < b
    requires u in rest
    ensures MovedTo(first + rest, next, u) == MovedTo(rest, next + |first|, u)
  {
    RankAppends(first, rest, u);
    RankExtremes(first, u);
  }

  /** Chunked commands give every message the UID one command would have given it exactly if the list ascends across chunks. */
  lemma {:induction false} ChunkedAlikeExactly(chunks: seq<seq<nat>>, next: nat)
    requires Distinct(Flatten(chunks))
    ensures SameAsOneCommand(chunks, next) <==> AscendingAcross(chunks)
  {
    if chunks != [] {
      var first, rest := chunks[0], Flatten(chunks[1..]);
      NoShared(first, rest);
      FirstChunkAlike(first, rest, next);
      ChunkedAlikeExactly(chunks[1..], next + |first|);
      assert forall u :: u in first + rest <==> u in first || u in rest;
      assert forall u :: u in rest ==> ChunkedTo(chunks, next, u) == ChunkedTo(chunks[1..], next + |first|, u);
      assert forall u :: u in first ==> ChunkedTo(chunks, next, u) == MovedTo(first, next, u);
      if forall a, b :: a in first && b in rest ==> a < b {
        forall u | u in rest ensures MovedTo(first + rest, next, u) == MovedTo(rest, next + |first|, u) {
          RestAlike(first, rest, next, u);
        }
      }
    }
  }

  /** So an ascending list may be chunked anywhere. */
  lemma {:induction false} AscendingListChunksAlike(uids: seq<nat>, size: nat)
    requires size > 0 && forall i, j :: 0 <= i < j < |uids| ==> uids[i] < uids[j]
    ensures AscendingAcross(UidChunks(uids, size))
  {
    if |uids| > size {
      AscendingListChunksAlike(uids[size..], size);
      ChunksAreTheList(uids[size..], size);
      assert UidChunks(uids, size)[1..] == UidChunks(uids[size..], size);
    }
  }

  /** A selection is not sorted: [9, 3] one at a time lands the other way round than in one command. */
  lemma ChunksCanReorder(next: nat)
    ensures UidChunks([9, 3], 1) == [[9], [3]]
    ensures ChunkedTo([[9], [3]], next, 9) == next && MovedTo([9, 3], next, 9) == next + 1
    ensures ChunkedTo([[9], [3]], next, 3) == next + 1 && MovedTo([9, 3], next, 3) == next
  {
    assert [9, 3][1..] == [3] && [9, 3][..1] == [9] && [3][1..] == [] && [9][1..] == [];
    assert UidChunks([3], 1) == [[3]];
    assert [[9], [3]][1..] == [[3]];
    assert ChunkedTo([[3]], next + 1, 3) == MovedTo([3], next + 1, 3);
    assert Rank([3], 9) == 1 && Rank([3], 3) == 0 && Rank([9, 3], 3) == Rank([3], 3);
    assert Rank([9], 9) == 0;
  }

  // ---- _reflect_move ------------------------------------------------------------------------

  type MsgId = nat
  type Folder = string

  datatype Place = Place(uid: Option<nat>, validity: Option<nat>)

  /** `message_placements`, keyed by its unique constraint. */
  type Placements = map<(MsgId, Folder), Place>

  /** A message and the folder of the placement to move. */
  datatype Target = Target(msg: MsgId, folder: Folder)

  /** A target with a placement; one message is targeted at most once. */
  ghost predicate Targets(ps: Placements, ts: seq<Target>) {
    && (forall i :: 0 <= i < |ts| ==> (ts[i].msg, ts[i].folder) in ps)
    && (forall i, j :: 0 <= i < j < |ts| ==> ts[i].msg != ts[j].msg)
  }

  /** Where the server said the target went. */
  function Confirmation(ps: Placements, landed: map<Folder, Landed>, t: Target): Option<(nat, Option<nat>)> {
    var uid := if (t.msg, t.folder) in ps then ps[(t.msg, t.folder)].uid else None;
    if uid.Some? && t.folder in landed && uid.value in landed[t.folder] then Some(landed[t.folder][uid.value]) else None
  }

  /** The old placement deleted, and `upsert_placement` at the destination; it does nothing for an unnamed folder. */
  function Moved(ps: Placements, t: Target, destination: Folder, to: (nat, Option<nat>)): Placements {
    var left := ps - {(t.msg, t.folder)};
    if destination == "" then left else left[(t.msg, destination) := Place(Some(to.0), to.1)]
  }

  datatype Fate = AlreadyThere | Unconfirmed | WentTo(to: (nat, Option<nat>))

  function FateOf(ps: Placements, landed: map<Folder, Landed>, destination: Folder, t: Target): Fate {
    if t.folder == destination then AlreadyThere
    else if Confirmation(ps, landed, t).None? then Unconfirmed
    else WentTo(Confirmation(ps, landed, t).value)
  }

  /** A target is moved exactly if it is elsewhere and the server named its UID there, and then to where the server said. */
  lemma ConfirmedExactly(ps: Placements, landed: map<Folder, Landed>, destination: Folder, t: Target, to: (nat, Option<nat>))
    ensures FateOf(ps, landed, destination, t) == AlreadyThere <==> t.folder == destination
    ensures FateOf(ps, landed, destination, t) == WentTo(to) <==>
              && t.folder != destination && (t.msg, t.folder) in ps && t.folder in landed
              && exists uid: nat :: ps[(t.msg, t.folder)].uid == Some(uid) && uid in landed[t.folder] && landed[t.folder][uid] == to
  {
  }

  /** The bulk update, target by target. */
  function Reflected(ps: Placements, landed: map<Folder, Landed>, destination: Folder, ts: seq<Target>): Placements
    decreases |ts|
  {
    if ts == [] then ps
    else
      var t := ts[|ts| - 1];
      var before := Reflected(ps, landed, destination, ts[..|ts| - 1]);
      var fate := FateOf(ps, landed, destination, t);
      if fate.WentTo? then Moved(before, t, destination, fate.to) else before
  }

  /** What the update comes to for one row of the table. */
  lemma {:induction false} ReflectedExactly(ps: Placements, landed: map<Folder, Landed>, destination: Folder, ts: seq<Target>,
                                            m: MsgId, f: Folder)
    requires Targets(ps, ts)
    ensures var after := Reflected(ps, landed, destination, ts);
            && ((forall i :: 0 <= i < |ts| ==> ts[i].msg != m || !FateOf(ps, landed, destination, ts[i]).WentTo?) ==>
                  ((m, f) in after <==> (m, f) in ps) && ((m, f) in ps ==> after[(m, f)] == ps[(m, f)]))
            && (forall i :: 0 <= i < |ts| && ts[i].msg == m && FateOf(ps, landed, destination, ts[i]).WentTo? ==>
                  var to := FateOf(ps, landed, destination, ts[i]).to;
                  if f == destination && destination != "" then (m, f) in after && after[(m, f)] == Place(Some(to.0), to.1)
                  else if f == ts[i].folder then (m, f) !in after
                  else ((m, f) in after <==> (m, f) in ps) && ((m, f) in ps ==> after[(m, f)] == ps[(m, f)]))
    decreases |ts|
  {
    if ts != [] {
      var init, t := ts[..|ts| - 1], ts[|ts| - 1];
      ReflectedExactly(ps, landed, destination, init, m, f);
      assert forall i :: 0 <= i < |init| ==> init[i] == ts[i];
      if t.msg == m {
        assert forall i :: 0 <= i < |init| ==> init[i].msg != m;
      }
    }
  }

  ghost predicate Placed(ps: Placements, m: MsgId) {
    exists f :: (m, f) in ps
  }

  /**
   A message with a placement keeps one, unless the destination has no name and its only placement was
   moved there: no target of a real move is left unplaced.
   */
  lemma UnplacedExactly(ps: Placements, landed: map<Folder, Landed>, destination: Folder, ts: seq<Target>, i: nat)
    requires Targets(ps, ts) && i < |ts|
    ensures !Placed(Reflected(ps, landed, destination, ts), ts[i].msg) <==>
              && destination == "" && FateOf(ps, landed, destination, ts[i]).WentTo?
              && forall f :: (ts[i].msg, f) in ps ==> f == ts[i].folder
  {
    var after, t := Reflected(ps, landed, destination, ts), ts[i];
    var fate := FateOf(ps, landed, destination, t);
    forall f
      ensures !fate.WentTo? ==> ((t.msg, f) in after <==> (t.msg, f) in ps)
      ensures fate.WentTo? ==> ((t.msg, f) in after <==>
                (f == destination && destination != "") || (f != t.folder && (t.msg, f) in ps))
    {
      ReflectedExactly(ps, landed, destination, ts, t.msg, f);
      assert forall j :: 0 <= j < |ts| && ts[j].msg == t.msg ==> j == i;
    }
    assert (t.msg, t.folder) in ps;
    if fate.WentTo? && destination != "" {
      assert (t.msg, destination) in after;
    }
  }

  /** Messages are independent of each other, so the order of the targets does not matter. */
  lemma OrderDoesNotMatter(ps: Placements, landed: map<Folder, Landed>, destination: Folder, a: seq<Target>, b: seq<Target>)
    requires Targets(ps, a) && Targets(ps, b) && forall t :: t in a <==> t in b
    ensures Reflected(ps, landed, destination, a) == Reflected(ps, landed, destination, b)
  {
    var ra, rb := Reflected(ps, landed, destination, a), Reflected(ps, landed, destination, b);
    forall m: MsgId, f: Folder
      ensures (m, f) in ra <==> (m, f) in rb
      ensures (m, f) in ra ==> ra[(m, f)] == rb[(m, f)]
    {
      ReflectedExactly(ps, landed, destination, a, m, f);
      ReflectedExactly(ps, landed, destination, b, m, f);
      SameMover(ps, landed, destination, a, b, m);
    }
    forall k: (MsgId, Folder)
      ensures k in ra <==> k in rb
      ensures k in ra ==> ra[k] == rb[k]
    {
      assert k == (k.0, k.1);
    }
  }

  lemma SameMover(ps: Placements, landed: map<Folder, Landed>, destination: Folder, a: seq<Target>, b: seq<Target>, m: MsgId)
    requires Targets(ps, a) && Targets(ps, b) && forall t :: t in a <==> t in b
    ensures (exists i :: 0 <= i < |a| && a[i].msg == m && FateOf(ps, landed, destination, a[i]).WentTo?) <==>
            (exists i :: 0 <= i < |b| && b[i].msg == m && FateOf(ps, landed, destination, b[i]).WentTo?)
    ensures forall i, j :: 0 <= i < |a| && 0 <= j < |b| && a[i].msg == m && b[j].msg == m ==> a[i] == b[j]
  {
    forall i | 0 <= i < |a| ensures exists j :: 0 <= j < |b| && b[j] == a[i] { assert a[i] in b; }
    forall j | 0 <= j < |b| ensures exists i :: 0 <= i < |a| && a[i] == b[j] { assert b[j] in a; }
    forall i, j | 0 <= i < |a| && 0 <= j < |b| && a[i].msg == m && b[j].msg == m ensures a[i] == b[j] {
      var k :| 0 <= k < |a| && a[k] == b[j];
      assert k == i;
    }
  }

  // ---- the selection by folder, and the update as the code runs it ---------------------------

  function Lengths(order: seq<Folder>, groups: map<Folder, seq<Target>>): nat
    requires forall f :: f in order ==> f in groups
  {
    if order == [] then 0 else |groups[order[0]]| + Lengths(order[1..], groups)
  }

  lemma {:induction false} OneLonger(order: seq<Folder>, groups: map<Folder, seq<Target>>, f: Folder, t: Target)
    requires Distinct(order) && (forall k :: k in order ==> k in groups) && f in groups
    ensures Lengths(order, groups[f := groups[f] + [t]]) == Lengths(order, groups) + (if f in order then 1 else 0)
  {
    if order != [] {
      OneLonger(order[1..], groups, f, t);
      assert f == order[0] ==> f !in order[1..];
    }
  }

  lemma {:induction false} OneFolderMore(order: seq<Folder>, groups: map<Folder, seq<Target>>, f: Folder, t: Target)
    requires (forall k :: k in order ==> k in groups) && f !in order
    ensures Lengths(order + [f], groups[f := [t]]) == Lengths(order, groups) + 1
  {
    var groups' := groups[f := [t]];
    if order == [] {
      assert [f][1..] == [];
    } else {
      assert (order + [f])[1..] == order[1..] + [f];
      OneFolderMore(order[1..], groups, f, t);
    }
  }

  /** What `by_folder` gives: the targets of each folder, folders in order of first appearance. */
  ghost predicate Grouped(targets: seq<Target>, order: seq<Folder>, groups: map<Folder, seq<Target>>) {
    && Distinct(order) && (forall f :: f in groups <==> f in order) && Lengths(order, groups) == |targets|
    && (forall f, t :: f in groups && t in groups[f] ==> t in targets && t.folder == f)
    && (forall t :: t in targets ==> t.folder in groups && t in groups[t.folder])
    && (forall f, i, j :: f in groups && 0 <= i < j < |groups[f]| ==> groups[f][i].msg != groups[f][j].msg)
  }

  lemma GroupOneMore(targets: seq<Target>, order: seq<Folder>, groups: map<Folder, seq<Target>>, t: Target)
    requires Grouped(targets, order, groups) && forall k :: k in targets ==> k.msg != t.msg
    ensures t.folder in groups ==> Grouped(targets + [t], order, groups[t.folder := groups[t.folder] + [t]])
    ensures t.folder !in groups ==> Grouped(targets + [t], order + [t.folder], groups[t.folder := [t]])
  {
    if t.folder in groups {
      OneLonger(order, groups, t.folder, t);
    } else {
      OneFolderMore(order, groups, t.folder, t);
    }
  }

  method ByFolder(targets: seq<Target>) returns (order: seq<Folder>, groups: map<Folder, seq<Target>>)
    requires forall i, j :: 0 <= i < j < |targets| ==> targets[i].msg != targets[j].msg
    ensures Grouped(targets, order, groups)
  {
    order, groups := [], map[];
    for i := 0 to |targets|
      invariant Grouped(targets[..i], order, groups)
    {
      var t := targets[i];
      GroupOneMore(targets[..i], order, groups, t);
      assert targets[..i + 1] == targets[..i] + [t];
      if t.folder in groups {
        groups := groups[t.folder := groups[t.folder] + [t]];
      } else {
        order, groups := order + [t.folder], groups[t.folder := [t]];
      }
    }
    assert targets[..|targets|] == targets;
  }

  /** The targets that went somewhere, and those left where they were for want of a confirmation. */
  function Gone(ps: Placements, landed: map<Folder, Landed>, destination: Folder, ts: seq<Target>): set<Target> {
    set t | t in ts && FateOf(ps, landed, destination, t).WentTo?
  }

  function Left(ps: Placements, landed: map<Folder, Landed>, destination: Folder, ts: seq<Target>): set<Target> {
    set t | t in ts && FateOf(ps, landed, destination, t).Unconfirmed?
  }

  lemma NotAmong(seen: seq<Target>, t: Target)
    requires forall i, j :: 0 <= i < j < |seen + [t]| ==> (seen + [t])[i].msg != (seen + [t])[j].msg
    ensures t !in seen
  {
    assert (seen + [t])[|seen|] == t;
    forall i | 0 <= i < |seen| ensures seen[i] != t {
      assert (seen + [t])[i] == seen[i];
    }
  }

  lemma OneMoreGone(ps: Placements, landed: map<Folder, Landed>, destination: Folder, seen: seq<Target>, t: Target)
    requires t !in seen
    ensures |Gone(ps, landed, destination, seen + [t])|
            == |Gone(ps, landed, destination, seen)| + (if FateOf(ps, landed, destination, t).WentTo? then 1 else 0)
  {
    var gone := Gone(ps, landed, destination, seen);
    assert Gone(ps, landed, destination, seen + [t]) == if FateOf(ps, landed, destination, t).WentTo? then gone + {t} else gone;
  }

  lemma OneMoreLeft(ps: Placements, landed: map<Folder, Landed>, destination: Folder, seen: seq<Target>, t: Target)
    requires t !in seen
    ensures |Left(ps, landed, destination, seen + [t])|
            == |Left(ps, landed, destination, seen)| + (if FateOf(ps, landed, destination, t).Unconfirmed? then 1 else 0)
  {
    var left := Left(ps, landed, destination, seen);
    assert Left(ps, landed, destination, seen + [t]) == if FateOf(ps, landed, destination, t).Unconfirmed? then left + {t} else left;
  }

  /** Where the update stands after the targets in `seen`: the table and the two counters. */
  ghost predicate Progress(now: Placements, ps: Placements, landed: map<Folder, Landed>, destination: Folder, seen: seq<Target>,
                           moved: nat, unconfirmed: nat) {
    && now == Reflected(ps, landed, destination, seen)
    && moved == |Gone(ps, landed, destination, seen)| && unconfirmed == |Left(ps, landed, destination, seen)|
  }

  lemma ProgressOne(now: Placements, ps: Placements, landed: map<Folder, Landed>, destination: Folder, seen: seq<Target>,
                    moved: nat, unconfirmed: nat, t: Target)
    requires Targets(ps, seen + [t]) && t.folder != destination
    requires Progress(now, ps, landed, destination, seen, moved, unconfirmed)
    ensures (t.msg, t.folder) in now && Confirmation(now, landed, t) == Confirmation(ps, landed, t)
    ensures Confirmation(now, landed, t).None? ==> Progress(now, ps, landed, destination, seen + [t], moved, unconfirmed + 1)
    ensures Confirmation(now, landed, t).Some? ==>
              Progress(Moved(now, t, destination, Confirmation(now, landed, t).value), ps, landed, destination, seen + [t], moved + 1, unconfirmed)
  {
    NotAmong(seen, t);
    OneMoreGone(ps, landed, destination, seen, t);
    OneMoreLeft(ps, landed, destination, seen, t);
    NotYetTouched(ps, landed, destination, seen, t);
    assert (seen + [t])[..|seen + [t]| - 1] == seen && (seen + [t])[|seen + [t]| - 1] == t;
  }

  class Index {
    var placements: Placements

    /** One target: record where it went, if the server said so. */
    method ReflectOne(t: Target, destination: Folder, landed: map<Folder, Landed>) returns (confirmed: bool)
      requires (t.msg, t.folder) in placements
      modifies this
      ensures confirmed <==> old(Confirmation(placements, landed, t)).Some?
      ensures placements == if confirmed then Moved(old(placements), t, destination, old(Confirmation(placements, landed, t)).value)
                            else old(placements)
    {
      var uid := placements[(t.msg, t.folder)].uid;
      if uid.None? || t.folder !in landed || uid.value !in landed[t.folder] { return false; }
      var to := landed[t.folder][uid.value];
      placements := placements - {(t.msg, t.folder)};
      if destination != "" {
        placements := placements[(t.msg, destination) := Place(Some(to.0), to.1)];
      }
      return true;
    }

    /** One folder of the selection that is not the destination; the counters go on from where they stood. */
    method ReflectGroup(group: seq<Target>, destination: Folder, landed: map<Folder, Landed>, moved0: nat, unconfirmed0: nat,
                        ghost was: Placements, ghost seen: seq<Target>)
      returns (moved: nat, unconfirmed: nat)
      requires Targets(was, seen + group) && forall t :: t in group ==> t.folder != destination
      requires Progress(placements, was, landed, destination, seen, moved0, unconfirmed0)
      modifies this
      ensures Progress(placements, was, landed, destination, seen + group, moved, unconfirmed)
      ensures moved + unconfirmed == moved0 + unconfirmed0 + |group|
    {
      moved, unconfirmed := moved0, unconfirmed0;
      ghost var sofar := seen;
      assert sofar == seen + group[..0];
      for i := 0 to |group|
        invariant sofar == seen + group[..i] && moved + unconfirmed == moved0 + unconfirmed0 + i
        invariant Progress(placements, was, landed, destination, sofar, moved, unconfirmed)
      {
        var t := group[i];
        assert t in group && sofar + [t] == (seen + group)[..|seen| + i + 1];
        TargetsPrefix(was, seen + group, |seen| + i + 1);
        ProgressOne(placements, was, landed, destination, sofar, moved, unconfirmed, t);
        var confirmed := ReflectOne(t, destination, landed);
        if confirmed { moved := moved + 1; } else { unconfirmed := unconfirmed + 1; }
        sofar := sofar + [t];
      }
      assert group[..|group|] == group;
    }

    /** `_reflect_move`. */
    method ReflectMove(targets: seq<Target>, destination: Folder, landed: map<Folder, Landed>)
      returns (moved: nat, alreadyThere: nat, unconfirmed: nat)
      requires Targets(placements, targets)
      modifies this
      ensures placements == Reflected(old(placements), landed, destination, targets)
      ensures moved + alreadyThere + unconfirmed == |targets|
      ensures moved == |Gone(old(placements), landed, destination, targets)|
      ensures unconfirmed == |Left(old(placements), landed, destination, targets)|
    {
      ghost var was := placements;
      var order, groups := ByFolder(targets);
      ghost var seen: seq<Target> := [];
      moved, alreadyThere, unconfirmed := 0, 0, 0;
      for k := 0 to |order|
        invariant Progress(placements, was, landed, destination, seen, moved, unconfirmed)
        invariant Seen(was, targets, order, groups, k, seen)
        invariant moved + alreadyThere + unconfirmed == |seen|
      {
        SeenOneMore(was, targets, order, groups, k, seen);
        var group := groups[order[k]];
        if order[k] == destination {
          alreadyThere := alreadyThere + |group|;
          NothingMoves(was, landed, destination, seen, group);
        } else {
          moved, unconfirmed := ReflectGroup(group, destination, landed, moved, unconfirmed, was, seen);
        }
        seen := seen + group;
      }
      SeenAll(was, targets, order, groups, seen);
      ProgressReordered(placements, was, landed, destination, seen, targets, moved, unconfirmed);
    }
  }

  lemma ProgressReordered(now: Placements, ps: Placements, landed: map<Folder, Landed>, destination: Folder,
                          a: seq<Target>, b: seq<Target>, moved: nat, unconfirmed: nat)
    requires Targets(ps, a) && Targets(ps, b) && (forall t :: t in a <==> t in b)
    requires Progress(now, ps, landed, destination, a, moved, unconfirmed)
    ensures Progress(now, ps, landed, destination, b, moved, unconfirmed)
  {
    OrderDoesNotMatter(ps, landed, destination, a, b);
    assert Gone(ps, landed, destination, a) == Gone(ps, landed, destination, b);
    assert Left(ps, landed, destination, a) == Left(ps, landed, destination, b);
  }

  /** The groups of the first k folders, one after the other. */
  ghost predicate Seen(ps: Placements, targets: seq<Target>, order: seq<Folder>, groups: map<Folder, seq<Target>>, k: nat, seen: seq<Target>)
    requires k <= |order| && forall f :: f in order ==> f in groups
  {
    && Targets(ps, seen) && (forall t :: t in seen <==> t in targets && t.folder in order[..k])
    && |seen| == Lengths(order[..k], groups)
  }

  lemma {:induction false} LengthsAppend(order: seq<Folder>, groups: map<Folder, seq<Target>>, f: Folder)
    requires (forall k :: k in order ==> k in groups) && f in groups
    ensures Lengths(order + [f], groups) == Lengths(order, groups) + |groups[f]|
  {
    if order == [] {
      assert [f][1..] == [];
    } else {
      assert (order + [f])[1..] == order[1..] + [f];
      LengthsAppend(order[1..], groups, f);
    }
  }

  lemma SeenOneMore(ps: Placements, targets: seq<Target>, order: seq<Folder>, groups: map<Folder, seq<Target>>, k: nat, seen: seq<Target>)
    requires Targets(ps, targets) && Grouped(targets, order, groups) && k < |order| && Seen(ps, targets, order, groups, k, seen)
    ensures Targets(ps, seen + groups[order[k]]) && Seen(ps, targets, order, groups, k + 1, seen + groups[order[k]])
    ensures forall t :: t in groups[order[k]] ==> t.folder == order[k]
  {
    var group := groups[order[k]];
    assert order[..k + 1] == order[..k] + [order[k]] && order[k] !in order[..k];
    LengthsAppend(order[..k], groups, order[k]);
    var both := seen + group;
    forall i | 0 <= i < |both| ensures (both[i].msg, both[i].folder) in ps {
      assert both[i] in both && both[i] in targets;
    }
    forall i, j | 0 <= i < j < |both| ensures both[i].msg != both[j].msg {
      if i < |seen| && |seen| <= j {
        assert seen[i] in seen && group[j - |seen|] in group;
        DifferentMessages(targets, both[i], both[j]);
      }
    }
  }

  lemma DifferentMessages(targets: seq<Target>, a: Target, b: Target)
    requires forall i, j :: 0 <= i < j < |targets| ==> targets[i].msg != targets[j].msg
    requires a in targets && b in targets && a != b
    ensures a.msg != b.msg
  {
    var i :| 0 <= i < |targets| && targets[i] == a;
    var j :| 0 <= j < |targets| && targets[j] == b;
  }

  lemma SeenAll(ps: Placements, targets: seq<Target>, order: seq<Folder>, groups: map<Folder, seq<Target>>, seen: seq<Target>)
    requires Grouped(targets, order, groups) && Seen(ps, targets, order, groups, |order|, seen)
    ensures |seen| == |targets| && forall t :: t in seen <==> t in targets
  {
    assert order[..|order|] == order;
  }

  /** A group already at the destination changes no row and neither count. */
  lemma {:induction false} NothingMoves(ps: Placements, landed: map<Folder, Landed>, destination: Folder, seen: seq<Target>, group: seq<Target>)
    requires forall t :: t in group ==> t.folder == destination
    ensures Reflected(ps, landed, destination, seen + group) == Reflected(ps, landed, destination, seen)
    ensures Gone(ps, landed, destination, seen + group) == Gone(ps, landed, destination, seen)
    ensures Left(ps, landed, destination, seen + group) == Left(ps, landed, destination, seen)
    decreases |group|
  {
    if group == [] {
      assert seen + group == seen;
    } else {
      var init, t := group[..|group| - 1], group[|group| - 1];
      NothingMoves(ps, landed, destination, seen, init);
      assert (seen + group)[..|seen + group| - 1] == seen + init && (seen + group)[|seen + group| - 1] == t;
      assert t in group;
    }
  }

  lemma TargetsPrefix(ps: Placements, ts: seq<Target>, n: nat)
    requires Targets(ps, ts) && n <= |ts|
    ensures Targets(ps, ts[..n])
  {
  }

  /** A message's row is as it was until its own turn. */
  lemma NotYetTouched(ps: Placements, landed: map<Folder, Landed>, destination: Folder, seen: seq<Target>, t: Target)
    requires Targets(ps, seen + [t])
    ensures var now := Reflected(ps, landed, destination, seen);
            (t.msg, t.folder) in now && (t.msg, t.folder) in ps && now[(t.msg, t.folder)] == ps[(t.msg, t.folder)]
  {
    TargetsPrefix(ps, seen + [t], |seen|);
    assert (seen + [t])[..|seen|] == seen && (seen + [t])[|seen|] == t;
    forall i | 0 <= i < |seen| ensures seen[i].msg != t.msg {
      assert (seen + [t])[i] == seen[i];
    }
    ReflectedExactly(ps, landed, destination, seen, t.msg, t.folder);
  }
}
