/**
 The outbound sweep of src/services/upload_service.py: lapsed claims are reclaimed, then the first
 `limit` rows the pass can act on are deleted, then payloads a retirement failed to free are collected.
 The whole pass runs without an await, at one clock reading.
 */
module UploadSweep {
  import opened Common
  import opened UploadRows

  // ---- the three selections -----------------------------------------------------------------

  datatype Query = LapsedClaims | DoomedRows | StrandedPayloads

  predicate Picks(q: Query, row: Row, now: Time) {
    match q
    case LapsedClaims => InFlight(row.state) && row.lease.Some? && row.lease.value <= now
    case DoomedRows => Actionable(row, now)
    case StrandedPayloads => row.state == SendUnknown && row.expires > now && row.path
  }

  /** What a selection matches among the ids below n, ORDER BY id. */
  function Picked(q: Query, t: Table, n: nat, now: Time): seq<SlotId> {
    if n == 0 then []
    else Picked(q, t, n - 1, now) + (if n - 1 in t && Picks(q, t[n - 1], now) then [n - 1] else [])
  }

  function First<T>(limit: nat, s: seq<T>): seq<T> {
    if limit < |s| then s[..limit] else s
  }

  function Ids(s: seq<SlotId>): set<SlotId> {
    set id | id in s
  }

  ghost predicate Ascending(s: seq<nat>) {
    forall i, j :: 0 <= i < j < |s| ==> s[i] < s[j]
  }

  /** A selection is in strict id order and contains exactly the matching rows. */
  lemma {:induction false} PickedExactly(q: Query, t: Table, n: nat, now: Time)
    ensures Ascending(Picked(q, t, n, now))
    ensures forall id :: id in Picked(q, t, n, now) <==> id < n && id in t && Picks(q, t[id], now)
  {
    if n > 0 {
      PickedExactly(q, t, n - 1, now);
      var init := Picked(q, t, n - 1, now);
      assert forall i :: 0 <= i < |init| ==> init[i] in init;
    }
  }

  /** There is only one way to list a set in order. */
  lemma {:induction false} SameList(a: seq<nat>, b: seq<nat>)
    requires Ascending(a) && Ascending(b)
    requires forall x :: x in a <==> x in b
    ensures a == b
  {
    assert a != [] ==> a[0] in b;
    assert b != [] ==> b[0] in a;
    if a != [] && b != [] {
      forall x ensures x in a[1..] <==> x in b[1..] {
        assert x in a[1..] <==> x in a && x != a[0];
        assert x in b[1..] <==> x in b && x != b[0];
      }
      SameList(a[1..], b[1..]);
    }
  }

  // ---- what one pass does -------------------------------------------------------------------

  /** The table and the files beside it. `stuck` names payloads the volume refuses to unlink. */
  datatype Store = Store(rows: Table, payloads: set<SlotId>, attempts: set<(SlotId, Token)>, stuck: set<SlotId>)

  function Unlink(s: Store, id: SlotId): Store {
    if id in s.stuck then s else s.(payloads := s.payloads - {id})
  }

  /** `_free_retired_payload`: unlink, and clear the path only when the file is really gone. */
  function Free(s: Store, id: SlotId): Store {
    var s' := Unlink(s, id);
    if id in s'.payloads then s' else s'.(rows := ClearPath(s'.rows, id))
  }

  /** `_reclaim_lapsed` when nothing runs in between. */
  function ReclaimOne(s: Store, id: SlotId, now: Time): Store {
    if Lapsed(s.rows, id, Receiving, now) then
      s.(rows := Reclaim(s.rows, id, Receiving, now),
         attempts := if s.rows[id].token.Some? then s.attempts - {(id, s.rows[id].token.value)} else s.attempts)
    else if Lapsed(s.rows, id, Sending, now) then
      Free(s.(rows := Reclaim(s.rows, id, Sending, now)), id)
    else s
  }

  /** A doomed row goes, with its payload and every attempt file of its slot. */
  function DeleteOne(s: Store, id: SlotId): Store {
    var s' := Unlink(s, id);
    s'.(rows := s'.rows - {id}, attempts := set a | a in s'.attempts && a.0 != id)
  }

  function ReclaimAll(s: Store, ids: seq<SlotId>, now: Time): Store {
    if ids == [] then s else ReclaimOne(ReclaimAll(s, ids[..|ids| - 1], now), ids[|ids| - 1], now)
  }

  function DeleteAll(s: Store, ids: seq<SlotId>): Store {
    if ids == [] then s else DeleteOne(DeleteAll(s, ids[..|ids| - 1]), ids[|ids| - 1])
  }

  function FreeAll(s: Store, ids: seq<SlotId>): Store {
    if ids == [] then s else Free(FreeAll(s, ids[..|ids| - 1]), ids[|ids| - 1])
  }

  /** How many of those payloads are gone afterwards. */
  function FreedCount(s: Store, ids: seq<SlotId>): nat {
    if ids == [] then 0
    else FreedCount(s, ids[..|ids| - 1]) + (if ids[|ids| - 1] !in FreeAll(s, ids).payloads then 1 else 0)
  }

  function Reclaimed(s: Store, n: nat, now: Time, limit: nat): Store {
    ReclaimAll(s, First(limit, Picked(LapsedClaims, s.rows, n, now)), now)
  }

  function Deleted(s: Store, n: nat, now: Time, limit: nat): Store {
    DeleteAll(s, First(limit, Picked(DoomedRows, s.rows, n, now)))
  }

  function Collected(s: Store, n: nat, now: Time, limit: nat): Store {
    FreeAll(s, First(limit, Picked(StrandedPayloads, s.rows, n, now)))
  }

  /** `sweep_outbound_uploads`. */
  function Pass(s: Store, n: nat, now: Time, limit: nat): Store {
    Collected(Deleted(Reclaimed(s, n, now, limit), n, now, limit), n, now, limit)
  }

  // ---- the pass as the code runs it ---------------------------------------------------------

  datatype SweepReport = SweepReport(removed: nat, examined: nat, limit: nat, freed: nat) {
    predicate Saturated() { examined >= limit }

    predicate Starved() { Saturated() && removed == 0 }
  }

  class Sweeper {
    var store: Store
    var nextSlot: SlotId

    /** The bounded query: ids in order until the window is full. */
    method Select(q: Query, now: Time, limit: nat) returns (ids: seq<SlotId>)
      ensures ids == First(limit, Picked(q, store.rows, nextSlot, now))
    {
      ids := [];
      var id := 0;
      while id < nextSlot && |ids| < limit
        invariant id <= nextSlot && |ids| <= limit
        invariant ids == Picked(q, store.rows, id, now)
        decreases nextSlot - id
      {
        if id in store.rows && Picks(q, store.rows[id], now) {
          ids := ids + [id];
        }
        id := id + 1;
      }
      PickedGrows(q, store.rows, id, nextSlot, now);
    }

    method ReclaimLapsed(now: Time, limit: nat)
      modifies `store
      ensures store == Reclaimed(old(store), nextSlot, now, limit)
    {
      var ids := Select(LapsedClaims, now, limit);
      for i := 0 to |ids|
        invariant store == ReclaimAll(old(store), ids[..i], now)
      {
        assert ids[..i + 1][..i] == ids[..i];
        store := ReclaimOne(store, ids[i], now);
      }
      assert ids[..|ids|] == ids;
    }

    method DeleteDoomed(now: Time, limit: nat) returns (examined: nat, removed: nat)
      modifies `store
      ensures store == Deleted(old(store), nextSlot, now, limit)
      ensures examined == removed == Min(limit, |Picked(DoomedRows, old(store).rows, nextSlot, now)|)
    {
      var doomed := Select(DoomedRows, now, limit);
      removed := 0;
      for i := 0 to |doomed|
        invariant removed == i && store == DeleteAll(old(store), doomed[..i])
      {
        assert doomed[..i + 1][..i] == doomed[..i];
        store := DeleteOne(store, doomed[i]);
        removed := removed + 1;
      }
      assert doomed[..|doomed|] == doomed;
      examined := |doomed|;
    }

    method CollectOrphans(now: Time, limit: nat) returns (freed: nat)
      modifies `store
      ensures store == Collected(old(store), nextSlot, now, limit)
      ensures freed == FreedCount(old(store), First(limit, Picked(StrandedPayloads, old(store).rows, nextSlot, now)))
    {
      var ids := Select(StrandedPayloads, now, limit);
      freed := 0;
      for i := 0 to |ids|
        invariant store == FreeAll(old(store), ids[..i]) && freed == FreedCount(old(store), ids[..i])
      {
        assert ids[..i + 1][..i] == ids[..i];
        store := Free(store, ids[i]);
        if ids[i] !in store.payloads {
          freed := freed + 1;
        }
      }
      assert ids[..|ids|] == ids;
    }

    method Sweep(now: Time, limit: nat) returns (r: SweepReport)
      modifies this
      ensures nextSlot == old(nextSlot) && store == Pass(old(store), nextSlot, now, limit)
      ensures r.limit == limit && r.examined == r.removed
      ensures r.removed == Min(limit, |Picked(DoomedRows, old(store).rows, nextSlot, now)|)
      ensures var deleted := Deleted(Reclaimed(old(store), nextSlot, now, limit), nextSlot, now, limit);
              r.freed == FreedCount(deleted, First(limit, Picked(StrandedPayloads, deleted.rows, nextSlot, now)))
      ensures r.Starved() <==> limit == 0
    {
      ReclaimLapsed(now, limit);
      ReclaimDoomsNothing(old(store), nextSlot, now, limit);
      var examined, removed := DeleteDoomed(now, limit);
      var freed := CollectOrphans(now, limit);
      r := SweepReport(removed, examined, limit, freed);
    }
  }

  lemma {:induction false} PickedGrows(q: Query, t: Table, m: nat, n: nat, now: Time)
    requires m <= n
    ensures Picked(q, t, m, now) <= Picked(q, t, n, now)
    decreases n - m
  {
    if m < n {
      PickedGrows(q, t, m, n - 1, now);
    }
  }

  // ---- what the pass means ------------------------------------------------------------------

  /** Reclaiming and freeing keep every row, and whether a row is actionable at a clock. */
  ghost predicate SameGarbage(s: Store, s': Store, now: Time) {
    && s'.rows.Keys == s.rows.Keys
    && (forall id :: id in s.rows ==> (Actionable(s'.rows[id], now) <==> Actionable(s.rows[id], now)))
  }

  lemma {:induction false} ReclaimAllKeepsGarbage(s: Store, ids: seq<SlotId>, now: Time, cutoff: Time)
    ensures SameGarbage(s, ReclaimAll(s, ids, now), cutoff)
  {
    if ids != [] {
      ReclaimAllKeepsGarbage(s, ids[..|ids| - 1], now, cutoff);
    }
  }

  lemma {:induction false} FreeAllKeepsGarbage(s: Store, ids: seq<SlotId>, now: Time)
    ensures SameGarbage(s, FreeAll(s, ids), now)
  {
    if ids != [] {
      FreeAllKeepsGarbage(s, ids[..|ids| - 1], now);
    }
  }

  lemma {:induction false} DeleteAllRemoves(s: Store, ids: seq<SlotId>)
    ensures DeleteAll(s, ids).rows == s.rows - Ids(ids)
    ensures forall id :: id in DeleteAll(s, ids).payloads <==> id in s.payloads && (id in ids ==> id in s.stuck)
    ensures forall a :: a in DeleteAll(s, ids).attempts <==> a in s.attempts && a.0 !in ids
    ensures DeleteAll(s, ids).stuck == s.stuck
  {
    if ids != [] {
      var init, last := ids[..|ids| - 1], ids[|ids| - 1];
      DeleteAllRemoves(s, init);
      assert forall id :: id in ids <==> id in init || id == last;
    }
  }

  lemma SamePicked(t: Table, t': Table, n: nat, now: Time)
    requires t'.Keys == t.Keys
    requires forall id :: id in t ==> (Actionable(t'[id], now) <==> Actionable(t[id], now))
    ensures Picked(DoomedRows, t', n, now) == Picked(DoomedRows, t, n, now)
  {
    PickedExactly(DoomedRows, t, n, now);
    PickedExactly(DoomedRows, t', n, now);
    SameList(Picked(DoomedRows, t', n, now), Picked(DoomedRows, t, n, now));
  }

  /** A reclaim at the top of the pass puts nothing in its deletion window. */
  lemma ReclaimDoomsNothing(s: Store, n: nat, now: Time, limit: nat)
    ensures Picked(DoomedRows, Reclaimed(s, n, now, limit).rows, n, now) == Picked(DoomedRows, s.rows, n, now)
  {
    ReclaimAllKeepsGarbage(s, First(limit, Picked(LapsedClaims, s.rows, n, now)), now, now);
    SamePicked(s.rows, Reclaimed(s, n, now, limit).rows, n, now);
  }

  /** An ordered list without its first `limit` members is the rest of it. */
  lemma RestOfQueue(queue: seq<SlotId>, limit: nat, left: seq<SlotId>)
    requires Ascending(queue) && Ascending(left)
    requires forall id :: id in left <==> id in queue && id !in First(limit, queue)
    ensures left == queue[|First(limit, queue)|..]
  {
    var cut := First(limit, queue);
    var rest := queue[|cut|..];
    assert queue == cut + rest;
    forall id ensures id in rest <==> id in queue && id !in cut {
      assert id in cut + rest <==> id in cut || id in rest;
    }
    SameList(left, rest);
  }

  /** The deletion step alone: its window goes, and the rest of the queue keeps its order. */
  lemma DeletedIsTheWindow(s: Store, n: nat, now: Time, limit: nat)
    ensures var doomed := Picked(DoomedRows, s.rows, n, now);
            && Deleted(s, n, now, limit).rows == s.rows - Ids(First(limit, doomed))
            && Picked(DoomedRows, Deleted(s, n, now, limit).rows, n, now) == doomed[|First(limit, doomed)|..]
  {
    var doomed := Picked(DoomedRows, s.rows, n, now);
    var t := s.rows - Ids(First(limit, doomed));
    DeleteAllRemoves(s, First(limit, doomed));
    PickedExactly(DoomedRows, s.rows, n, now);
    PickedExactly(DoomedRows, t, n, now);
    RestOfQueue(doomed, limit, Picked(DoomedRows, t, n, now));
  }

  /** One pass deletes exactly the first `limit` actionable rows in id order, and no others. */
  lemma PassDeletes(s: Store, n: nat, now: Time, limit: nat)
    ensures var doomed := Picked(DoomedRows, s.rows, n, now);
            && Pass(s, n, now, limit).rows.Keys == s.rows.Keys - Ids(First(limit, doomed))
            && Picked(DoomedRows, Pass(s, n, now, limit).rows, n, now) == doomed[|First(limit, doomed)|..]
  {
    var r := Reclaimed(s, n, now, limit);
    var d := Deleted(r, n, now, limit);
    ReclaimDoomsNothing(s, n, now, limit);
    ReclaimAllKeepsGarbage(s, First(limit, Picked(LapsedClaims, s.rows, n, now)), now, now);
    DeletedIsTheWindow(r, n, now, limit);
    FreeAllKeepsGarbage(d, First(limit, Picked(StrandedPayloads, d.rows, n, now)), now);
    SamePicked(d.rows, Collected(d, n, now, limit).rows, n, now);
  }

  /** One pass at each of these clock readings. */
  function Passes(s: Store, n: nat, clocks: seq<Time>, limit: nat): Store
    decreases |clocks|
  {
    if clocks == [] then s else Passes(Pass(s, n, clocks[0], limit), n, clocks[1..], limit)
  }

  /** The clock never steps back. */
  ghost predicate Onward(clocks: seq<Time>) { forall i, j :: 0 <= i < j < |clocks| ==> clocks[i] <= clocks[j] }

  /** No row becomes actionable while the passes run. */
  predicate NothingRipens(t: Table, clocks: seq<Time>) {
    clocks != [] ==> forall id :: id in t && Actionable(t[id], clocks[|clocks| - 1]) ==> Actionable(t[id], clocks[0])
  }

  /** What a pass leaves standing is as actionable as it was, at any clock. */
  lemma PassKeepsGarbage(s: Store, n: nat, now: Time, limit: nat, cutoff: Time)
    ensures var t := Pass(s, n, now, limit).rows;
            forall id :: id in t ==> id in s.rows && (Actionable(t[id], cutoff) <==> Actionable(s.rows[id], cutoff))
  {
    var r := Reclaimed(s, n, now, limit);
    var d := Deleted(r, n, now, limit);
    ReclaimAllKeepsGarbage(s, First(limit, Picked(LapsedClaims, s.rows, n, now)), now, cutoff);
    DeleteAllRemoves(r, First(limit, Picked(DoomedRows, r.rows, n, now)));
    FreeAllKeepsGarbage(d, First(limit, Picked(StrandedPayloads, d.rows, n, now)), cutoff);
  }

  /** The queue does not depend on the clock reading, as long as nothing ripens. */
  lemma SameQueue(t: Table, n: nat, now: Time, later: Time)
    requires forall id :: id in t ==> (Actionable(t[id], later) <==> Actionable(t[id], now))
    ensures Picked(DoomedRows, t, n, later) == Picked(DoomedRows, t, n, now)
  {
    PickedExactly(DoomedRows, t, n, now);
    PickedExactly(DoomedRows, t, n, later);
    SameList(Picked(DoomedRows, t, n, later), Picked(DoomedRows, t, n, now));
  }

  /** After the first of several passes, still nothing ripens, and the rest of the queue is the same by the next clock. */
  lemma NextPassSees(s: Store, n: nat, clocks: seq<Time>, limit: nat)
    requires |clocks| > 1 && Onward(clocks) && NothingRipens(s.rows, clocks)
    ensures var s' := Pass(s, n, clocks[0], limit);
            && NothingRipens(s'.rows, clocks[1..]) && Onward(clocks[1..])
            && Picked(DoomedRows, s'.rows, n, clocks[1]) == Picked(DoomedRows, s'.rows, n, clocks[0])
  {
    var s' := Pass(s, n, clocks[0], limit);
    var first, next, last := clocks[0], clocks[1], clocks[|clocks| - 1];
    PassKeepsGarbage(s, n, first, limit, first);
    PassKeepsGarbage(s, n, first, limit, next);
    PassKeepsGarbage(s, n, first, limit, last);
    assert first <= next <= last && clocks[1..][|clocks| - 2] == last;
    SameQueue(s'.rows, n, first, next);
  }

  function Times(k: nat, limit: nat): (m: nat)
    ensures m == k * limit
  {
    if k == 0 then 0 else limit + Times(k - 1, limit)
  }

  /** What deletes the next m of the queue one pass leaves has deleted limit + m of the whole queue. */
  lemma AfterOnePass(s: Store, n: nat, now: Time, limit: nat, t: Table, m: nat)
    requires var s' := Pass(s, n, now, limit);
             t.Keys == s'.rows.Keys - Ids(First(m, Picked(DoomedRows, s'.rows, n, now)))
    ensures t.Keys == s.rows.Keys - Ids(First(limit + m, Picked(DoomedRows, s.rows, n, now)))
  {
    PassDeletes(s, n, now, limit);
    FirstOfRest(Picked(DoomedRows, s.rows, n, now), limit, m);
  }

  lemma PassesUnfold(s: Store, n: nat, clocks: seq<Time>, limit: nat)
    requires clocks != []
    ensures Passes(s, n, clocks, limit) == Passes(Pass(s, n, clocks[0], limit), n, clocks[1..], limit)
  {
  }

  /** The rows after all the passes, from what the passes after the first one delete. */
  lemma PassesAfterOne(s: Store, n: nat, clocks: seq<Time>, limit: nat, t: Table)
    requires |clocks| > 1 && Onward(clocks) && NothingRipens(s.rows, clocks)
    requires var s' := Pass(s, n, clocks[0], limit);
             t.Keys == s'.rows.Keys - Ids(First(Times(|clocks| - 1, limit), Picked(DoomedRows, s'.rows, n, clocks[1])))
    ensures t.Keys == s.rows.Keys - Ids(First(Times(|clocks|, limit), Picked(DoomedRows, s.rows, n, clocks[0])))
  {
    NextPassSees(s, n, clocks, limit);
    AfterOnePass(s, n, clocks[0], limit, t, Times(|clocks| - 1, limit));
  }

  /**
   With no new garbage, k passes delete exactly the first min(k * limit, actionable) rows in id order,
   however many retained `send_unknown` rows stand in front of them, and however the clock moves on.
   */
  lemma {:induction false} PassesDelete(s: Store, n: nat, clocks: seq<Time>, limit: nat)
    requires clocks != [] && Onward(clocks) && NothingRipens(s.rows, clocks)
    ensures var doomed := Picked(DoomedRows, s.rows, n, clocks[0]);
            Passes(s, n, clocks, limit).rows.Keys == s.rows.Keys - Ids(First(Times(|clocks|, limit), doomed))
    decreases |clocks|
  {
    var s', rest := Pass(s, n, clocks[0], limit), clocks[1..];
    PassesUnfold(s, n, clocks, limit);
    if rest == [] {
      PassDeletes(s, n, clocks[0], limit);
    } else {
      NextPassSees(s, n, clocks, limit);
      PassesDelete(s', n, rest, limit);
      PassesAfterOne(s, n, clocks, limit, Passes(s', n, rest, limit).rows);
    }
  }

  lemma FirstOfRest(s: seq<SlotId>, a: nat, b: nat)
    ensures Ids(First(a + b, s)) == Ids(First(a, s)) + Ids(First(b, s[|First(a, s)|..]))
  {
    var front, back := First(a, s), First(b, s[|First(a, s)|..]);
    assert front + back == First(a + b, s);
    assert forall x :: x in front + back <==> x in front || x in back;
  }

  // ---- which rows a pass selects, and what becomes of them ------------------------------------

  /** Whom each selection is for: claims past their lease, rows sent or past their time, retained rows with a payload. */
  predicate Wanted(q: Query, row: Row, now: Time) {
    match q
    case LapsedClaims => (row.state == Receiving || row.state == Sending) && row.lease.Some? && now >= row.lease.value
    case DoomedRows => row.state == Consumed || now >= row.expires
    case StrandedPayloads => row.state == SendUnknown && now < row.expires && row.path
  }

  function WantedBelow(q: Query, t: Table, x: SlotId, now: Time): set<SlotId> {
    set id | id in t && id < x && Wanted(q, t[id], now)
  }

  /** One of the first `limit` in id order. */
  predicate Chosen(q: Query, t: Table, x: SlotId, now: Time, limit: nat) {
    x in t && Wanted(q, t[x], now) && |WantedBelow(q, t, x, now)| < limit
  }

  lemma IdsBefore(queue: seq<SlotId>, i: nat)
    requires Ascending(queue) && i < |queue|
    ensures |Ids(queue[..i])| == i
    ensures forall id :: id in Ids(queue[..i]) <==> id in queue && id < queue[i]
  {
    CountOf(queue[..i]);
    forall id | id in queue && id < queue[i] ensures id in queue[..i] {
      var j :| 0 <= j < |queue| && queue[j] == id;
      assert j < i && queue[..i][j] == id;
    }
    forall id | id in queue[..i] ensures id in queue && id < queue[i] {
      var j :| 0 <= j < i && queue[..i][j] == id;
      assert queue[j] == id;
    }
  }

  lemma PlaceInQueue(q: Query, t: Table, n: nat, now: Time, i: nat)
    requires (forall id :: id in t ==> id < n) && i < |Picked(q, t, n, now)|
    ensures |WantedBelow(q, t, Picked(q, t, n, now)[i], now)| == i
  {
    var queue := Picked(q, t, n, now);
    PickedExactly(q, t, n, now);
    IdsBefore(queue, i);
    assert WantedBelow(q, t, queue[i], now) == Ids(queue[..i]);
  }

  lemma InWindowExactly(queue: seq<SlotId>, limit: nat, i: nat)
    requires Ascending(queue) && i < |queue|
    ensures queue[i] in First(limit, queue) <==> i < limit
  {
    if queue[i] in First(limit, queue) {
      var j :| 0 <= j < |First(limit, queue)| && First(limit, queue)[j] == queue[i];
      assert queue[j] == queue[i];
    }
    assert i < limit ==> First(limit, queue)[i] == queue[i];
  }

  /** Each bounded query returns exactly the wanted rows with fewer than `limit` wanted ones before them. */
  lemma SelectedExactly(q: Query, t: Table, n: nat, now: Time, limit: nat, x: SlotId)
    requires forall id :: id in t ==> id < n
    ensures x in First(limit, Picked(q, t, n, now)) <==> Chosen(q, t, x, now, limit)
  {
    var queue := Picked(q, t, n, now);
    PickedExactly(q, t, n, now);
    if x in queue {
      var i :| 0 <= i < |queue| && queue[i] == x;
      PlaceInQueue(q, t, n, now, i);
      InWindowExactly(queue, limit, i);
    }
  }

  /** A pass deletes a row exactly if it is consumed or expired and fewer than `limit` such rows are older. */
  lemma DeletedExactly(s: Store, n: nat, now: Time, limit: nat, x: SlotId)
    requires x in s.rows && forall id :: id in s.rows ==> id < n
    ensures x !in Pass(s, n, now, limit).rows <==> Chosen(DoomedRows, s.rows, x, now, limit)
  {
    PassDeletes(s, n, now, limit);
    SelectedExactly(DoomedRows, s.rows, n, now, limit, x);
  }

  /** The volume keeps the payload whatever is asked of it. */
  predicate Resists(s: Store, x: SlotId) { x in s.payloads && x in s.stuck }

  /** A claim taken back: a PUT's slot is as before it, a send's is of unknown delivery and pathless unless its payload resists. */
  function TakenBack(s: Store, x: SlotId): Row
    requires x in s.rows
  {
    if s.rows[x].state == Receiving then s.rows[x].(state := Pending, lease := None, token := None, received := 0)
    else s.rows[x].(state := SendUnknown, lease := None, token := None, path := s.rows[x].path && Resists(s, x))
  }

  /** Row by row, file by file: what reclaiming these slots does. */
  ghost predicate ReclaimsJust(s: Store, s': Store, ids: set<SlotId>) {
    && s'.stuck == s.stuck && s'.rows.Keys == s.rows.Keys
    && (forall id :: id in s.rows ==> s'.rows[id] == if id in ids then TakenBack(s, id) else s.rows[id])
    && (forall id :: id in s'.payloads <==> id in s.payloads && (id in s.rows && id in ids && s.rows[id].state == Sending ==> id in s.stuck))
    && (forall a :: a in s'.attempts <==>
          a in s.attempts && !(a.0 in s.rows && a.0 in ids && s.rows[a.0].state == Receiving && s.rows[a.0].token == Some(a.1)))
  }

  lemma OneMoreReclaimed(s: Store, s1: Store, ids: set<SlotId>, x: SlotId, now: Time)
    requires ReclaimsJust(s, s1, ids) && x !in ids && x in s.rows && Wanted(LapsedClaims, s.rows[x], now)
    ensures ReclaimsJust(s, ReclaimOne(s1, x, now), ids + {x})
  {
  }

  lemma {:induction false} ReclaimAllExactly(s: Store, ids: seq<SlotId>, now: Time)
    requires Ascending(ids) && forall id :: id in ids ==> id in s.rows && Wanted(LapsedClaims, s.rows[id], now)
    ensures ReclaimsJust(s, ReclaimAll(s, ids, now), Ids(ids))
  {
    if ids != [] {
      var init, last := ids[..|ids| - 1], ids[|ids| - 1];
      ReclaimAllExactly(s, init, now);
      assert ids == init + [last] && last !in init;
      assert Ids(ids) == Ids(init) + {last};
      OneMoreReclaimed(s, ReclaimAll(s, init, now), Ids(init), last, now);
    }
  }

  /**
   The first of the three steps takes back exactly the oldest `limit` claims past their lease, with the file of
   each attempt and the payload of each send it takes them from, unless the volume refuses.
   */
  lemma ReclaimedExactly(s: Store, n: nat, now: Time, limit: nat)
    requires forall id :: id in s.rows ==> id < n
    ensures ReclaimsJust(s, Reclaimed(s, n, now, limit), set id | id in s.rows && Chosen(LapsedClaims, s.rows, id, now, limit))
  {
    var ids := First(limit, Picked(LapsedClaims, s.rows, n, now));
    PickedExactly(LapsedClaims, s.rows, n, now);
    forall id ensures id in ids <==> Chosen(LapsedClaims, s.rows, id, now, limit) { SelectedExactly(LapsedClaims, s.rows, n, now, limit, id); }
    ReclaimAllExactly(s, ids, now);
    assert Ids(ids) == set id | id in s.rows && Chosen(LapsedClaims, s.rows, id, now, limit);
  }

  /** Row by row, file by file: what freeing these payloads does. */
  ghost predicate FreesJust(s: Store, s': Store, ids: set<SlotId>) {
    && s'.stuck == s.stuck && s'.attempts == s.attempts && s'.rows.Keys == s.rows.Keys
    && (forall id :: id in s.rows ==>
          s'.rows[id] == if id in ids then s.rows[id].(path := s.rows[id].path && Resists(s, id)) else s.rows[id])
    && (forall id :: id in s'.payloads <==> id in s.payloads && (id in ids ==> id in s.stuck))
  }

  lemma {:induction false} FreeAllExactly(s: Store, ids: seq<SlotId>)
    ensures FreesJust(s, FreeAll(s, ids), Ids(ids))
  {
    if ids != [] {
      var init, last := ids[..|ids| - 1], ids[|ids| - 1];
      FreeAllExactly(s, init);
      assert ids == init + [last];
      assert Ids(ids) == Ids(init) + {last};
    }
  }

  /** Those of the slots whose payload is gone once it was asked to go. */
  function Yielding(s: Store, ids: seq<SlotId>): set<SlotId> {
    set id | id in ids && !Resists(s, id)
  }

  lemma OneMoreYielding(s: Store, init: seq<SlotId>, last: SlotId)
    requires last !in init
    ensures |Yielding(s, init + [last])| == |Yielding(s, init)| + if Resists(s, last) then 0 else 1
  {
    if Resists(s, last) {
      assert Yielding(s, init + [last]) == Yielding(s, init);
    } else {
      assert Yielding(s, init + [last]) == Yielding(s, init) + {last};
    }
  }

  lemma {:induction false} FreedCountExactly(s: Store, ids: seq<SlotId>)
    requires Ascending(ids)
    ensures FreedCount(s, ids) == |Yielding(s, ids)|
  {
    if ids == [] {
      assert Yielding(s, ids) == {};
    } else {
      var init, last := ids[..|ids| - 1], ids[|ids| - 1];
      FreedCountExactly(s, init);
      FreeAllExactly(s, ids);
      assert ids == init + [last] && last !in init;
      OneMoreYielding(s, init, last);
    }
  }

  /** The last step frees exactly the oldest `limit` stranded payloads that do not resist, clears their paths, and counts them. */
  lemma CollectedExactly(s: Store, n: nat, now: Time, limit: nat)
    requires forall id :: id in s.rows ==> id < n
    ensures var chosen := set id | id in s.rows && Chosen(StrandedPayloads, s.rows, id, now, limit);
            && FreesJust(s, Collected(s, n, now, limit), chosen)
            && FreedCount(s, First(limit, Picked(StrandedPayloads, s.rows, n, now))) == |set id | id in chosen && !Resists(s, id)|
  {
    var ids := First(limit, Picked(StrandedPayloads, s.rows, n, now));
    PickedExactly(StrandedPayloads, s.rows, n, now);
    forall id ensures id in ids <==> Chosen(StrandedPayloads, s.rows, id, now, limit) {
      SelectedExactly(StrandedPayloads, s.rows, n, now, limit, id);
    }
    FreeAllExactly(s, ids);
    FreedCountExactly(s, ids);
    var chosen := set id | id in s.rows && Chosen(StrandedPayloads, s.rows, id, now, limit);
    assert Ids(ids) == chosen;
    assert Yielding(s, ids) == set id | id in chosen && !Resists(s, id);
  }

  // ---- no head-of-line blocking, whatever happens between passes ------------------------------

  function Below(t: Table, x: SlotId): set<SlotId> {
    set id | id in t && id < x
  }

  /** What other activity may do between two passes: anything but insert an id below x. */
  predicate NothingOlder(t: Table, t': Table, x: SlotId) {
    Below(t', x) <= Below(t, x)
  }

  /** The window of a pass that does not reach x holds only ids below x. */
  lemma WindowBelow(doomed: seq<SlotId>, limit: nat, x: SlotId)
    requires Ascending(doomed) && x in doomed && x !in First(limit, doomed)
    ensures |Ids(First(limit, doomed))| == limit
    ensures forall id :: id in Ids(First(limit, doomed)) ==> id in doomed && id < x
  {
    var cut := First(limit, doomed);
    var i :| 0 <= i < |doomed| && doomed[i] == x;
    assert forall j :: 0 <= j < |cut| ==> doomed[j] == cut[j] && doomed[j] in cut;
    CountOf(cut);
    forall id | id in cut ensures id in doomed && id < x {
      var j :| 0 <= j < |cut| && cut[j] == id;
      assert doomed[j] == id;
    }
  }

  /** A pass that leaves an actionable row standing deleted a full window of older rows. */
  lemma PassWorksThroughOlderRows(s: Store, n: nat, now: Time, limit: nat, x: SlotId)
    requires x in s.rows && x < n && Actionable(s.rows[x], now)
    requires x in Pass(s, n, now, limit).rows
    ensures |Below(Pass(s, n, now, limit).rows, x)| + limit <= |Below(s.rows, x)|
  {
    var doomed := Picked(DoomedRows, s.rows, n, now);
    var gone := Ids(First(limit, doomed));
    var t := Pass(s, n, now, limit).rows;
    PassDeletes(s, n, now, limit);
    PickedExactly(DoomedRows, s.rows, n, now);
    assert x !in gone;
    WindowBelow(doomed, limit, x);
    FewerBelow(s.rows, t, gone, x);
  }

  lemma FewerBelow(t: Table, t': Table, gone: set<SlotId>, x: SlotId)
    requires t'.Keys == t.Keys - gone
    requires forall id :: id in gone ==> id in t && id < x
    ensures |Below(t', x)| + |gone| <= |Below(t, x)|
  {
    assert Below(t', x) !! gone;
    assert Below(t', x) + gone == Below(t, x);
  }

  lemma {:induction false} CountOf(s: seq<SlotId>)
    requires Ascending(s)
    ensures |Ids(s)| == |s|
  {
    if s == [] {
      assert Ids(s) == {};
    } else {
      var init, last := s[..|s| - 1], s[|s| - 1];
      CountOf(init);
      assert s == init + [last];
      assert last !in init;
      assert Ids(s) == Ids(init) + {last};
    }
  }

  /** One pass of a history: the store it found, its clock, and the number of ids then. */
  datatype Visit = Visit(found: Store, n: nat, now: Time)

  ghost predicate Survives(v: Visit, limit: nat, x: SlotId) {
    && x in v.found.rows && x < v.n && Actionable(v.found.rows[x], v.now)
    && x in Pass(v.found, v.n, v.now, limit).rows
  }

  ghost predicate Follows(v: Visit, v': Visit, limit: nat, x: SlotId) {
    NothingOlder(Pass(v.found, v.n, v.now, limit).rows, v'.found.rows, x)
  }

  /**
   An actionable row waits for the older rows alone: whatever else happens between passes, it cannot
   survive more than |older| / limit of them.
   */
  lemma {:induction false} WaitIsBounded(visits: seq<Visit>, limit: nat, x: SlotId)
    requires visits != []
    requires forall i :: 0 <= i < |visits| ==> Survives(visits[i], limit, x)
    requires forall i, j :: 0 <= i && j == i + 1 && j < |visits| ==> Follows(visits[i], visits[j], limit, x)
    ensures |visits| * limit <= |Below(visits[0].found.rows, x)|
    decreases |visits|
  {
    var v := visits[0];
    assert Survives(v, limit, x);
    PassWorksThroughOlderRows(v.found, v.n, v.now, limit, x);
    assert |visits| * limit == Times(|visits|, limit) == limit + Times(|visits| - 1, limit);
    if |visits| > 1 {
      WaitIsBounded(visits[1..], limit, x);
      assert Follows(v, visits[1], limit, x);
      SubsetSize(Below(visits[1].found.rows, x), Below(Pass(v.found, v.n, v.now, limit).rows, x));
    }
  }

  /** Of the files, a pass takes those of the rows it deletes, unless the volume refuses. */
  lemma DeletedSlotsLeaveNothing(s: Store, n: nat, now: Time, limit: nat, id: SlotId)
    requires id in First(limit, Picked(DoomedRows, s.rows, n, now))
    ensures id in Pass(s, n, now, limit).payloads ==> id in s.stuck
    ensures forall a :: a in Pass(s, n, now, limit).attempts ==> a.0 != id
  {
    var r := Reclaimed(s, n, now, limit);
    var cut := First(limit, Picked(DoomedRows, s.rows, n, now));
    var d := Deleted(r, n, now, limit);
    ReclaimDoomsNothing(s, n, now, limit);
    ReclaimAllOnlyRemovesFiles(s, First(limit, Picked(LapsedClaims, s.rows, n, now)), now);
    DeleteAllRemoves(r, cut);
    FreeAllOnlyRemovesFiles(d, First(limit, Picked(StrandedPayloads, d.rows, n, now)));
  }

  lemma {:induction false} ReclaimAllOnlyRemovesFiles(s: Store, ids: seq<SlotId>, now: Time)
    ensures var s' := ReclaimAll(s, ids, now);
            s'.payloads <= s.payloads && s'.attempts <= s.attempts && s'.stuck == s.stuck
  {
    if ids != [] {
      ReclaimAllOnlyRemovesFiles(s, ids[..|ids| - 1], now);
    }
  }

  lemma {:induction false} FreeAllOnlyRemovesFiles(s: Store, ids: seq<SlotId>)
    ensures FreeAll(s, ids).payloads <= s.payloads && FreeAll(s, ids).attempts == s.attempts
  {
    if ids != [] {
      FreeAllOnlyRemovesFiles(s, ids[..|ids| - 1]);
    }
  }
}
