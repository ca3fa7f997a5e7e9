/**
 The per-user byte and slot budgets of src/services/upload_service.py.

 There is one API process and one event loop, so whatever runs between two awaits runs alone. Each
 method of UploadService is one such stretch; a run is any sequence of calls, and Valid() is what holds
 at every await. A coroutine that dies simply makes no further calls.
 */
module UploadBudget {
  import opened Common
  import opened UploadRows

  const RECHECK_BYTES: nat := 1024 * 1024

  datatype Config = Config(
    cap: nat,      // max_pending_uploads_per_user
    budget: nat,   // max_pending_upload_bytes_per_user
    limit: nat,    // max_outbound_attachment_bytes
    ttl: nat)

  // ---- charges ------------------------------------------------------------------------------

  function Promise(declared: Option<nat>, limit: nat): nat {
    if declared.Some? then declared.value else limit
  }

  /** `_charged_bytes`: what a live slot costs its owner right now. */
  function Charge(row: Row, limit: nat): nat {
    var promised := Promise(row.declared, limit);
    if row.size.Some? then row.size.value
    else if row.state == Receiving && promised < row.received then row.received
    else promised
  }

  /** `_live_pending`: not terminal, not expired, this owner's. */
  predicate Live(row: Row, owner: nat, now: Time) {
    row.owner == owner && !Terminal(row.state) && row.expires > now
  }

  function Share(t: Table, owner: nat, now: Time, limit: nat, id: nat): nat {
    if id in t && Live(t[id], owner, now) then Charge(t[id], limit) else 0
  }

  function One(t: Table, owner: nat, now: Time, id: nat): nat {
    if id in t && Live(t[id], owner, now) then 1 else 0
  }

  /** The owner's live byte total, over the first n ids. */
  function Committed(t: Table, owner: nat, now: Time, limit: nat, n: nat): nat {
    if n == 0 then 0 else Committed(t, owner, now, limit, n - 1) + Share(t, owner, now, limit, n - 1)
  }

  /** The owner's live slot count, over the first n ids. */
  function Slots(t: Table, owner: nat, now: Time, n: nat): nat {
    if n == 0 then 0 else Slots(t, owner, now, n - 1) + One(t, owner, now, n - 1)
  }

  /** Changing one row changes the totals by that row's own share. */
  lemma {:induction false} OneRowChanges(t: Table, t': Table, owner: nat, now: Time, limit: nat, n: nat, id: nat)
    requires forall k :: k != id ==> (k in t <==> k in t') && (k in t ==> t'[k] == t[k])
    ensures Committed(t', owner, now, limit, n) + (if id < n then Share(t, owner, now, limit, id) else 0)
            == Committed(t, owner, now, limit, n) + (if id < n then Share(t', owner, now, limit, id) else 0)
    ensures Slots(t', owner, now, n) + (if id < n then One(t, owner, now, id) else 0)
            == Slots(t, owner, now, n) + (if id < n then One(t', owner, now, id) else 0)
  {
    if n > 0 {
      OneRowChanges(t, t', owner, now, limit, n - 1, id);
    }
  }

  /** If no row costs more, the totals do not grow. */
  lemma {:induction false} Shrinks(t: Table, now: Time, t': Table, now': Time, owner: nat, limit: nat, n: nat)
    requires forall id: nat :: id < n ==>
               && Share(t', owner, now', limit, id) <= Share(t, owner, now, limit, id)
               && One(t', owner, now', id) <= One(t, owner, now, id)
    ensures Committed(t', owner, now', limit, n) <= Committed(t, owner, now, limit, n)
    ensures Slots(t', owner, now', n) <= Slots(t, owner, now, n)
  {
    if n > 0 {
      Shrinks(t, now, t', now', owner, limit, n - 1);
    }
  }

  /** The owner's live byte total ignoring one slot of their own. */
  function Elsewhere(t: Table, owner: nat, now: Time, limit: nat, n: nat, slot: SlotId): nat {
    if n == 0 then 0
    else Elsewhere(t, owner, now, limit, n - 1, slot)
         + (if n - 1 == slot then 0 else Share(t, owner, now, limit, n - 1))
  }

  lemma {:induction false} ElsewherePlusOwn(t: Table, owner: nat, now: Time, limit: nat, n: nat, slot: SlotId)
    ensures Committed(t, owner, now, limit, n)
            == Elsewhere(t, owner, now, limit, n, slot) + (if slot < n then Share(t, owner, now, limit, slot) else 0)
  {
    if n > 0 {
      ElsewherePlusOwn(t, owner, now, limit, n - 1, slot);
    }
  }

  /** What is spent elsewhere does not depend on the slot itself. */
  lemma {:induction false} SameElsewhere(t: Table, t': Table, owner: nat, now: Time, limit: nat, n: nat, slot: SlotId)
    requires forall k :: k != slot ==> (k in t <==> k in t') && (k in t ==> t'[k] == t[k])
    ensures Elsewhere(t', owner, now, limit, n, slot) == Elsewhere(t, owner, now, limit, n, slot)
  {
    if n > 0 {
      SameElsewhere(t, t', owner, now, limit, n - 1, slot);
    }
  }

  /** `_budget_allowance`: what one attempt may still take against the owner's live total. */
  function Allowance(t: Table, owner: nat, now: Time, n: nat, slot: SlotId, cfg: Config): nat {
    var spent := Elsewhere(t, owner, now, cfg.limit, n, slot);
    if spent > cfg.budget then 0 else Min(cfg.limit, cfg.budget - spent)
  }

  // ---- what is charged, from the columns --------------------------------------------------------

  /** Spendable or in flight, not expired, this owner's. */
  predicate OnTheBooks(row: Row, owner: nat, now: Time) {
    row.owner == owner && row.state in {Pending, Receiving, Stored, Sending} && now < row.expires
  }

  function BookedSlots(t: Table, owner: nat, now: Time): set<SlotId> {
    set id | id in t && OnTheBooks(t[id], owner, now)
  }

  predicate Booked(t: Table, owner: nat, now: Time, id: nat) { id in t && OnTheBooks(t[id], owner, now) }

  /** What arrived, over the slots that have their bytes. */
  function StoredBytes(t: Table, owner: nat, now: Time, n: nat): nat {
    if n == 0 then 0
    else StoredBytes(t, owner, now, n - 1) + (if Booked(t, owner, now, n - 1) && t[n - 1].size.Some? then t[n - 1].size.value else 0)
  }

  /** The greater of promise and running total, over the slots being filled. */
  function ArrivingBytes(t: Table, owner: nat, now: Time, limit: nat, n: nat): nat {
    if n == 0 then 0
    else ArrivingBytes(t, owner, now, limit, n - 1)
         + (if Booked(t, owner, now, n - 1) && t[n - 1].size.None? && t[n - 1].state == Receiving
            then Max(if t[n - 1].declared.Some? then t[n - 1].declared.value else limit, t[n - 1].received) else 0)
  }

  /** The promises of the slots nobody has begun to fill; no promise counts as the limit. */
  function PromisedBytes(t: Table, owner: nat, now: Time, limit: nat, n: nat): nat {
    if n == 0 then 0
    else PromisedBytes(t, owner, now, limit, n - 1)
         + (if Booked(t, owner, now, n - 1) && t[n - 1].size.None? && t[n - 1].state != Receiving
            then if t[n - 1].declared.Some? then t[n - 1].declared.value else limit else 0)
  }

  function Spent(t: Table, owner: nat, now: Time, limit: nat, n: nat): nat {
    StoredBytes(t, owner, now, n) + ArrivingBytes(t, owner, now, limit, n) + PromisedBytes(t, owner, now, limit, n)
  }

  /** The byte total is what arrived, is arriving, or is promised. */
  lemma {:induction false} CommittedIsSpent(t: Table, owner: nat, now: Time, limit: nat, n: nat)
    ensures Committed(t, owner, now, limit, n) == Spent(t, owner, now, limit, n)
  {
    if n > 0 {
      CommittedIsSpent(t, owner, now, limit, n - 1);
    }
  }

  /** The total without one slot is the total of the table without it. */
  lemma {:induction false} ElsewhereIsTheRest(t: Table, owner: nat, now: Time, limit: nat, n: nat, slot: SlotId)
    ensures Elsewhere(t, owner, now, limit, n, slot) == Spent(t - {slot}, owner, now, limit, n)
  {
    if n > 0 {
      ElsewhereIsTheRest(t, owner, now, limit, n - 1, slot);
    }
  }

  lemma {:induction false} SlotsAreCounted(t: Table, owner: nat, now: Time, n: nat)
    ensures Slots(t, owner, now, n) == |set id | id in t && OnTheBooks(t[id], owner, now) && id < n|
  {
    var counted := set id | id in t && OnTheBooks(t[id], owner, now) && id < n;
    if n > 0 {
      SlotsAreCounted(t, owner, now, n - 1);
      var before := set id | id in t && OnTheBooks(t[id], owner, now) && id < n - 1;
      assert counted == before + if Booked(t, owner, now, n - 1) then {n - 1} else {};
    } else {
      assert counted == {};
    }
  }

  lemma AllSlotsAreCounted(t: Table, owner: nat, now: Time, n: nat)
    requires forall id :: id in t ==> id < n
    ensures Slots(t, owner, now, n) == |BookedSlots(t, owner, now)|
  {
    SlotsAreCounted(t, owner, now, n);
    assert BookedSlots(t, owner, now) == set id | id in t && OnTheBooks(t[id], owner, now) && id < n;
  }

  /** Bytes fit the allowance exactly if they pass neither the limit nor, beside everything else, the budget. */
  lemma AllowanceExactly(t: Table, owner: nat, now: Time, n: nat, slot: SlotId, cfg: Config, total: nat)
    requires total > 0
    ensures total <= Allowance(t, owner, now, n, slot, cfg)
            <==> total <= cfg.limit && Spent(t - {slot}, owner, now, cfg.limit, n) + total <= cfg.budget
  {
    ElsewhereIsTheRest(t, owner, now, cfg.limit, n, slot);
  }

  // ---- bytes on the volume ------------------------------------------------------------------

  /**
   A PUT parked in `async for`: the local variables it comes back with, and the bytes its scratch file
   occupies. A reclaim or a sweep truncates the file under an attempt that goes on writing.
   */
  datatype Stream = Stream(slot: SlotId, owner: nat, declared: Option<nat>, total: nat, allowance: nat,
                           nextRecheck: nat, disk: nat)

  type Streams = map<Token, Stream>

  /** `_discard_attempt_file` on the file of one claim. */
  function Truncated(streams: Streams, holder: Option<Token>): Streams {
    if holder.Some? && holder.value in streams
    then streams[holder.value := streams[holder.value].(disk := 0)] else streams
  }

  /** ... and on the file of every attempt there ever was on a slot. */
  function Discarded(streams: Streams, slot: SlotId): Streams {
    map k | k in streams :: if streams[k].slot == slot then streams[k].(disk := 0) else streams[k]
  }

  predicate OpenOn(streams: Streams, k: Token, id: SlotId) { k in streams && streams[k].slot == id }

  /** The bytes of every attempt still streaming into a slot, dispossessed or not, over the first m tokens. */
  function StreamBytes(streams: Streams, id: SlotId, m: nat): nat {
    if m == 0 then 0
    else StreamBytes(streams, id, m - 1) + (if OpenOn(streams, m - 1, id) then streams[m - 1].disk else 0)
  }

  /** How many attempts are still streaming into a slot. */
  function StreamsOn(streams: Streams, id: SlotId, m: nat): nat {
    if m == 0 then 0 else StreamsOn(streams, id, m - 1) + (if OpenOn(streams, m - 1, id) then 1 else 0)
  }

  /** The bytes really on the volume for a live slot: its payload, and whatever is being streamed into it. */
  function OnVolume(t: Table, streams: Streams, owner: nat, now: Time, m: nat, id: nat): nat {
    if id in t && Live(t[id], owner, now)
    then (if t[id].size.Some? then t[id].size.value else 0) + StreamBytes(streams, id, m) else 0
  }

  function Written(t: Table, streams: Streams, owner: nat, now: Time, m: nat, n: nat): nat {
    if n == 0 then 0
    else Written(t, streams, owner, now, m, n - 1) + OnVolume(t, streams, owner, now, m, n - 1)
  }

  /** The open streams of one slot, if it is a live one of this owner. */
  function OpenHere(t: Table, streams: Streams, owner: nat, now: Time, m: nat, id: nat): nat {
    if id in t && Live(t[id], owner, now) then StreamsOn(streams, id, m) else 0
  }

  /** The open streams of the owner's live slots. */
  function OpenStreams(t: Table, streams: Streams, owner: nat, now: Time, m: nat, n: nat): nat {
    if n == 0 then 0
    else OpenStreams(t, streams, owner, now, m, n - 1)
         + OpenHere(t, streams, owner, now, m, n - 1)
  }

  function ReceivingSlots(t: Table, owner: nat, now: Time, n: nat): nat {
    if n == 0 then 0
    else ReceivingSlots(t, owner, now, n - 1)
         + (if n - 1 in t && Live(t[n - 1], owner, now) && t[n - 1].state == Receiving then 1 else 0)
  }

  predicate Holds(row: Row, k: Token) { row.state == Receiving && row.token == Some(k) }

  /** A receiving row trails its own stream by less than one recheck. */
  predicate Tracks(id: SlotId, row: Row, streams: Streams) {
    row.state == Receiving ==>
      && row.token.Some? && row.token.value in streams
      && var st := streams[row.token.value];
         && st.slot == id && st.owner == row.owner && st.declared == row.declared
         && row.received <= st.total < st.nextRecheck <= row.received + RECHECK_BYTES
  }

  /** An attempt that lost its slot has written no more since than it may before its next recheck. */
  predicate Astray(k: Token, st: Stream, t: Table) {
    st.slot in t && !Holds(t[st.slot], k) ==> st.disk + st.nextRecheck <= st.total + RECHECK_BYTES
  }

  predicate StreamShape(st: Stream, limit: nat) {
    st.total <= st.allowance <= limit && st.total < st.nextRecheck && st.disk <= st.total
  }

  predicate StreamFits(k: Token, st: Stream, t: Table, minted: Token, limit: nat) {
    k < minted && StreamShape(st, limit) && Astray(k, st, t)
  }

  lemma {:induction false} SlotBytes(t: Table, streams: Streams, id: SlotId, limit: nat, minted: Token, m: nat)
    requires id in t && Tracks(id, t[id], streams)
    requires forall k :: k in streams ==> StreamFits(k, streams[k], t, minted, limit)
    ensures StreamBytes(streams, id, m)
            <= (RECHECK_BYTES - 1) * StreamsOn(streams, id, m)
               + (if t[id].state == Receiving && t[id].token.value < m then t[id].received else 0)
  {
    if m > 0 {
      SlotBytes(t, streams, id, limit, minted, m - 1);
      if OpenOn(streams, m - 1, id) {
        assert StreamFits(m - 1, streams[m - 1], t, minted, limit);
      }
    }
  }

  lemma SlotIsNearlyCommitted(t: Table, streams: Streams, owner: nat, now: Time, limit: nat, m: nat, id: nat)
    requires id in t ==> Tracks(id, t[id], streams) && (t[id].size.Some? ==> t[id].state != Receiving)
    requires forall k :: k in streams ==> StreamFits(k, streams[k], t, m, limit)
    ensures OnVolume(t, streams, owner, now, m, id)
            <= Share(t, owner, now, limit, id) + (RECHECK_BYTES - 1) * OpenHere(t, streams, owner, now, m, id)
  {
    if id in t && Live(t[id], owner, now) {
      SlotBytes(t, streams, id, limit, m, m);
    }
  }

  lemma {:induction false} WrittenIsNearlyCommitted(t: Table, streams: Streams, owner: nat, now: Time, limit: nat, m: nat, n: nat)
    requires forall id: nat :: id in t ==> Tracks(id, t[id], streams) && (t[id].size.Some? ==> t[id].state != Receiving)
    requires forall k :: k in streams ==> StreamFits(k, streams[k], t, m, limit)
    ensures Written(t, streams, owner, now, m, n)
            <= Committed(t, owner, now, limit, n) + (RECHECK_BYTES - 1) * OpenStreams(t, streams, owner, now, m, n)
  {
    if n > 0 {
      WrittenIsNearlyCommitted(t, streams, owner, now, limit, m, n - 1);
      SlotIsNearlyCommitted(t, streams, owner, now, limit, m, n - 1);
      var a, b := OpenStreams(t, streams, owner, now, m, n - 1), OpenHere(t, streams, owner, now, m, n - 1);
      assert (RECHECK_BYTES - 1) * (a + b) == (RECHECK_BYTES - 1) * a + (RECHECK_BYTES - 1) * b;
    }
  }

  /** No attempt that lost a slot of this owner, among the first n, is still streaming. */
  predicate NoneDispossessed(t: Table, streams: Streams, owner: nat, now: Time, n: nat) {
    forall k :: k in streams && streams[k].slot < n && streams[k].slot in t && Live(t[streams[k].slot], owner, now)
                ==> Holds(t[streams[k].slot], k)
  }

  lemma {:induction false} HolderIsOpen(row: Row, streams: Streams, id: SlotId, m: nat)
    requires Tracks(id, row, streams)
    ensures var held := if row.state == Receiving && row.token.value < m then 1 else 0;
            && StreamsOn(streams, id, m) >= held
            && (StreamsOn(streams, id, m) == held
                <==> forall k: nat :: k < m && OpenOn(streams, k, id) ==> Holds(row, k))
  {
    if m > 0 {
      HolderIsOpen(row, streams, id, m - 1);
      if OpenOn(streams, m - 1, id) && !Holds(row, m - 1) {
        assert StreamsOn(streams, id, m) > StreamsOn(streams, id, m - 1);
      }
    }
  }

  /** There is an open stream for every receiving slot, and no other just when none was dispossessed. */
  lemma {:induction false} OneStreamPerReceivingSlot(t: Table, streams: Streams, owner: nat, now: Time, m: nat, n: nat)
    requires forall id: nat :: id in t ==> Tracks(id, t[id], streams)
    requires forall k :: k in streams ==> k < m
    ensures OpenStreams(t, streams, owner, now, m, n) >= ReceivingSlots(t, owner, now, n)
    ensures OpenStreams(t, streams, owner, now, m, n) == ReceivingSlots(t, owner, now, n)
            <==> NoneDispossessed(t, streams, owner, now, n)
  {
    if n > 0 {
      OneStreamPerReceivingSlot(t, streams, owner, now, m, n - 1);
      if n - 1 in t && Live(t[n - 1], owner, now) {
        assert Tracks(n - 1, t[n - 1], streams);
        HolderIsOpen(t[n - 1], streams, n - 1, m);
        var id := n - 1;
        assert forall k: nat :: OpenOn(streams, k, id) ==> k < m;
      }
    }
  }

  // ---- what holds at every await ------------------------------------------------------------

  predicate RowShape(id: SlotId, row: Row, streams: Streams, minted: Token, limit: nat) {
    && Promise(row.declared, limit) <= limit
    && (row.size.Some? <==> row.state !in {Pending, Receiving})
    && (row.size.None? ==> row.digest.None? && !row.path)
    && (row.size.Some? ==> row.size.value <= Promise(row.declared, limit))
    && (row.token.Some? ==> row.token.value < minted)
    && Tracks(id, row, streams)
  }

  /** Table and streams fit together. */
  ghost predicate Shaped(t: Table, streams: Streams, n: SlotId, minted: Token, limit: nat) {
    && (forall id :: id in t ==> id < n && RowShape(id, t[id], streams, minted, limit))
    && (forall k :: k in streams ==> streams[k].slot < n && StreamFits(k, streams[k], t, minted, limit))
  }

  /** One row moves, and one stream of that slot comes, goes or moves on. */
  lemma SlotMoves(t: Table, streams: Streams, t': Table, streams': Streams,
                  n: SlotId, minted: Token, minted': Token, limit: nat, id: SlotId, k: Token)
    requires Shaped(t, streams, n, minted, limit) && minted <= minted'
    requires forall j :: j != id ==> (j in t <==> j in t') && (j in t ==> t'[j] == t[j])
    requires forall j :: j != k ==> (j in streams <==> j in streams') && (j in streams ==> streams'[j] == streams[j])
    requires k in streams ==> streams[k].slot == id
    requires id in t' ==> id in t && RowShape(id, t'[id], streams', minted', limit)
    requires k in streams' ==> streams'[k].slot < n && StreamFits(k, streams'[k], t', minted', limit)
    requires id in t' ==> forall j :: j in streams && j != k && Holds(t[id], j) ==> Holds(t'[id], j)
    ensures Shaped(t', streams', n, minted', limit)
  {
    forall j | j in t' ensures j < n && RowShape(j, t'[j], streams', minted', limit) {
      assert RowShape(j, t[j], streams, minted, limit);
    }
    forall j | j in streams' ensures streams'[j].slot < n && StreamFits(j, streams'[j], t', minted', limit) {
      if j != k {
        assert StreamFits(j, streams[j], t, minted, limit);
      }
    }
  }

  predicate Within(t: Table, owner: nat, now: Time, n: nat, cfg: Config) {
    Committed(t, owner, now, cfg.limit, n) <= cfg.budget && Slots(t, owner, now, n) <= cfg.cap
  }

  /** Both limits hold for every owner. */
  ghost predicate WithinBudget(t: Table, now: Time, n: nat, cfg: Config) {
    forall owner: nat :: Within(t, owner, now, n, cfg)
  }

  /** A table in which no slot costs more, and none came to life, is within budget too. */
  lemma StillWithinBudget(t: Table, now: Time, t': Table, now': Time, n: nat, cfg: Config)
    requires WithinBudget(t, now, n, cfg)
    requires forall id: nat, owner: nat :: id < n ==>
               && Share(t', owner, now', cfg.limit, id) <= Share(t, owner, now, cfg.limit, id)
               && One(t', owner, now', id) <= One(t, owner, now, id)
    ensures WithinBudget(t', now', n, cfg)
  {
    forall owner: nat ensures Within(t', owner, now', n, cfg) {
      assert Within(t, owner, now, n, cfg);
      Shrinks(t, now, t', now', owner, cfg.limit, n);
    }
  }

  /** The new version of a row that costs no more than the old one. */
  predicate NoDearer(row: Row, row': Row, limit: nat) {
    && row'.owner == row.owner && row'.expires == row.expires
    && (Terminal(row'.state) || (!Terminal(row.state) && Charge(row', limit) <= Charge(row, limit)))
  }

  /** No owner is charged more than before. */
  ghost predicate NoneChargedMore(t: Table, t': Table, now: Time, n: nat, limit: nat) {
    forall owner: nat :: Committed(t', owner, now, limit, n) <= Committed(t, owner, now, limit, n)
  }

  /** One row replaced by one that costs no more. */
  lemma CheaperRow(t: Table, now: Time, n: SlotId, cfg: Config, id: SlotId, row: Row)
    requires WithinBudget(t, now, n, cfg) && id in t && NoDearer(t[id], row, cfg.limit)
    ensures WithinBudget(t[id := row], now, n, cfg)
    ensures NoneChargedMore(t, t[id := row], now, n, cfg.limit)
  {
    StillWithinBudget(t, now, t[id := row], now, n, cfg);
    forall owner: nat ensures Committed(t[id := row], owner, now, cfg.limit, n) <= Committed(t, owner, now, cfg.limit, n) {
      Shrinks(t, now, t[id := row], now, owner, cfg.limit, n);
    }
  }

  /** One row whose own charge, beside everything else, still fits. */
  lemma FittingRow(t: Table, now: Time, n: SlotId, cfg: Config, id: SlotId, row: Row)
    requires WithinBudget(t, now, n, cfg) && id in t && id < n
    requires row.owner == t[id].owner && row.expires == t[id].expires && Terminal(row.state) == Terminal(t[id].state)
    requires Charge(row, cfg.limit) + Elsewhere(t, row.owner, now, cfg.limit, n, id) <= cfg.budget
    ensures WithinBudget(t[id := row], now, n, cfg)
  {
    var t' := t[id := row];
    forall owner: nat ensures Within(t', owner, now, n, cfg) {
      assert Within(t, owner, now, n, cfg);
      OneRowChanges(t, t', owner, now, cfg.limit, n, id);
      ElsewherePlusOwn(t, row.owner, now, cfg.limit, n, id);
    }
  }

  /** The claim on the slot can be reclaimed from this time on, and not before. */
  ghost predicate HeldUntil(t: Table, id: SlotId, state: SlotState, end: Time) {
    forall later: Time :: Lapsed(t, id, state, later) <==> later >= end
  }

  /** The locals of an attempt after a chunk that needed no recheck ... */
  function Extended(st: Stream, total: nat): Stream
    requires total >= st.total
  {
    st.(total := total, disk := st.disk + total - st.total)
  }

  /** ... and after one that did. */
  function Rechecked(st: Stream, total: nat, allowance: nat): Stream
    requires total >= st.total
  {
    Extended(st, total).(allowance := allowance, nextRecheck := total + RECHECK_BYTES)
  }

  // ---- the service --------------------------------------------------------------------------

  datatype Refusal = NegativeSize | TooLarge | TooManySlots | OverBudget | NotFound | AlreadyReceived | DeliveryUnknown

  datatype Answer<T> = Ok(value: T) | Refused(why: Refusal)

  class UploadService {
    const cfg: Config
    var rows: Table
    var streams: Streams
    var nextSlot: SlotId
    var nextToken: Token
    var now: Time

    ghost predicate Valid()
      reads this
    {
      Shaped(rows, streams, nextSlot, nextToken, cfg.limit) && WithinBudget(rows, now, nextSlot, cfg)
    }

    constructor (cfg: Config)
      ensures Valid() && rows == map[] && streams == map[] && this.cfg == cfg
      ensures nextSlot == 0 && nextToken == 0 && now == 0
    {
      this.cfg := cfg;
      rows, streams, nextSlot, nextToken, now := map[], map[], 0, 0, 0;
    }

    lemma TokensAreMinted()
      requires Valid()
      ensures nextToken !in streams && forall k :: k in streams ==> k < nextToken
    {
      forall k | k in streams ensures k < nextToken {
        assert StreamFits(k, streams[k], rows, nextToken, cfg.limit);
      }
    }

    /**
     At every await: for every owner the live charges fit the byte budget, the live slots fit the slot
     cap, and the bytes really written overrun the budget by less than 1 MiB per open stream of a live
     slot: less than 1 MiB per receiving slot if no dispossessed attempt is still streaming. The open
     streams are as many as the receiving slots then, and only then.
     */
    lemma BudgetsHold(owner: nat)
      requires Valid()
      ensures Committed(rows, owner, now, cfg.limit, nextSlot) == Spent(rows, owner, now, cfg.limit, nextSlot) <= cfg.budget
      ensures Slots(rows, owner, now, nextSlot) == |BookedSlots(rows, owner, now)| <= cfg.cap
      ensures Written(rows, streams, owner, now, nextToken, nextSlot)
              <= cfg.budget + (RECHECK_BYTES - 1) * OpenStreams(rows, streams, owner, now, nextToken, nextSlot)
      ensures NoneDispossessed(rows, streams, owner, now, nextSlot) ==>
                Written(rows, streams, owner, now, nextToken, nextSlot)
                <= cfg.budget + (RECHECK_BYTES - 1) * ReceivingSlots(rows, owner, now, nextSlot)
      ensures OpenStreams(rows, streams, owner, now, nextToken, nextSlot) == ReceivingSlots(rows, owner, now, nextSlot)
              <==> NoneDispossessed(rows, streams, owner, now, nextSlot)
    {
      assert Within(rows, owner, now, nextSlot, cfg);
      CommittedIsSpent(rows, owner, now, cfg.limit, nextSlot);
      AllSlotsAreCounted(rows, owner, now, nextSlot);
      forall id: nat | id in rows ensures Tracks(id, rows[id], streams) && (rows[id].size.Some? ==> rows[id].state != Receiving) {
        assert RowShape(id, rows[id], streams, nextToken, cfg.limit);
      }
      TokensAreMinted();
      WrittenIsNearlyCommitted(rows, streams, owner, now, cfg.limit, nextToken, nextSlot);
      OneStreamPerReceivingSlot(rows, streams, owner, now, nextToken, nextSlot);
    }

    // ---- reserving a slot -------------------------------------------------------------------

    /** The sums of `_enforce_pending_budget` and `_committed_bytes`, the latter leaving one slot out. */
    method Totals(owner: nat, excluding: Option<SlotId>) returns (count: nat, bytes: nat)
      ensures excluding.None? ==> count == Slots(rows, owner, now, nextSlot)
      ensures excluding.None? ==> bytes == Committed(rows, owner, now, cfg.limit, nextSlot)
      ensures excluding.Some? ==> bytes == Elsewhere(rows, owner, now, cfg.limit, nextSlot, excluding.value)
      ensures excluding.None? ==> bytes == Spent(rows, owner, now, cfg.limit, nextSlot)
      ensures excluding.Some? ==> bytes == Spent(rows - {excluding.value}, owner, now, cfg.limit, nextSlot)
    {
      CommittedIsSpent(rows, owner, now, cfg.limit, nextSlot);
      if excluding.Some? { ElsewhereIsTheRest(rows, owner, now, cfg.limit, nextSlot, excluding.value); }
      count, bytes := 0, 0;
      for id := 0 to nextSlot
        invariant excluding.None? ==> count == Slots(rows, owner, now, id)
        invariant excluding.None? ==> bytes == Committed(rows, owner, now, cfg.limit, id)
        invariant excluding.Some? ==> bytes == Elsewhere(rows, owner, now, cfg.limit, id, excluding.value)
      {
        if Some(id) != excluding && id in rows && Live(rows[id], owner, now) {
          count, bytes := count + 1, bytes + Charge(rows[id], cfg.limit);
        }
      }
    }

    lemma ReservedRow(owner: nat, declared: Option<nat>)
      requires Valid() && Promise(declared, cfg.limit) <= cfg.limit
      requires Slots(rows, owner, now, nextSlot) < cfg.cap
      requires Committed(rows, owner, now, cfg.limit, nextSlot) + Promise(declared, cfg.limit) <= cfg.budget
      ensures var t' := rows[nextSlot := NewRow(owner, declared, now + cfg.ttl)];
              && Shaped(t', streams, nextSlot + 1, nextToken, cfg.limit) && WithinBudget(t', now, nextSlot + 1, cfg)
    {
      var t', n := rows[nextSlot := NewRow(owner, declared, now + cfg.ttl)], nextSlot + 1;
      forall other: nat ensures Within(t', other, now, n, cfg) {
        assert Within(rows, other, now, nextSlot, cfg);
        OneRowChanges(rows, t', other, now, cfg.limit, nextSlot, nextSlot);
      }
    }

    /** `begin_upload`. */
    method Begin(owner: nat, declared: Option<int>) returns (r: Answer<SlotId>)
      requires Valid()
      modifies this
      ensures Valid() && now == old(now) && streams == old(streams) && nextToken == old(nextToken)
      ensures r.Refused? ==> rows == old(rows) && nextSlot == old(nextSlot)
      ensures r.Ok? ==>
                && r.value == old(nextSlot) && r.value !in old(rows) && nextSlot == old(nextSlot) + 1
                && (declared.Some? ==> 0 <= declared.value)
                && rows == old(rows)[r.value := NewRow(owner, if declared.Some? then Some(declared.value) else None, now + cfg.ttl)]
      ensures r == Refused(NegativeSize) <==> declared.Some? && declared.value < 0
      ensures r == Refused(TooLarge) <==> declared.Some? && declared.value > cfg.limit
      ensures r == Refused(TooManySlots) <==>
                (declared.Some? ==> 0 <= declared.value <= cfg.limit) && old(|BookedSlots(rows, owner, now)|) >= cfg.cap
      ensures r.Ok? <==>
                && (declared.Some? ==> 0 <= declared.value <= cfg.limit) && old(|BookedSlots(rows, owner, now)|) < cfg.cap
                && old(Spent(rows, owner, now, cfg.limit, nextSlot)) + (if declared.Some? then declared.value else cfg.limit) <= cfg.budget
      ensures r.Ok? || r.why in {NegativeSize, TooLarge, TooManySlots, OverBudget}
    {
      AllSlotsAreCounted(rows, owner, now, nextSlot);
      if declared.Some? && declared.value < 0 { return Refused(NegativeSize); }
      if declared.Some? && declared.value > cfg.limit { return Refused(TooLarge); }
      var count, committed := Totals(owner, None);
      if count >= cfg.cap { return Refused(TooManySlots); }
      var size: Option<nat> := if declared.Some? then Some(declared.value) else None;
      if committed + Promise(size, cfg.limit) > cfg.budget { return Refused(OverBudget); }
      ReservedRow(owner, size);
      r := Ok(nextSlot);
      rows := rows[nextSlot := NewRow(owner, size, now + cfg.ttl)];
      nextSlot := nextSlot + 1;
    }

    // ---- one row moves ----------------------------------------------------------------------

    /** The first half of `_reclaim_lapsed`: receiving falls back to pending, its scratch file is emptied. */
    method ReclaimBody(slot: SlotId)
      requires Valid()
      modifies `rows, `streams
      ensures Valid()
      ensures rows == Reclaim(old(rows), slot, Receiving, now)
      ensures streams == if old(Lapsed(rows, slot, Receiving, now)) then Truncated(old(streams), old(rows[slot].token)) else old(streams)
    {
      if Lapsed(rows, slot, Receiving, now) {
        var row := ReclaimedRow(rows[slot], Receiving);
        assert RowShape(slot, rows[slot], streams, nextToken, cfg.limit);
        var k := rows[slot].token.value;
        assert StreamFits(k, streams[k], rows, nextToken, cfg.limit);
        CheaperRow(rows, now, nextSlot, cfg, slot, row);
        SlotMoves(rows, streams, rows[slot := row], Truncated(streams, Some(k)), nextSlot, nextToken, nextToken, cfg.limit, slot, k);
        streams := Truncated(streams, rows[slot].token);
      }
      rows := Reclaim(rows, slot, Receiving, now);
    }

    /** `_reclaim_lapsed`: receiving falls back to pending, sending to send_unknown. */
    method ReclaimLapsed(slot: SlotId)
      requires Valid()
      modifies `rows, `streams
      ensures Valid()
      ensures rows == Reclaim(Reclaim(old(rows), slot, Receiving, now), slot, Sending, now)
      ensures streams == if old(Lapsed(rows, slot, Receiving, now)) then Truncated(old(streams), old(rows[slot].token)) else old(streams)
      ensures streams.Keys == old(streams.Keys)
      ensures forall k :: k in streams ==>
                streams[k] == if old(Lapsed(rows, slot, Receiving, now) && rows[slot].token == Some(k)) then old(streams)[k].(disk := 0)
                              else old(streams)[k]
    {
      ReclaimBody(slot);
      if Lapsed(rows, slot, Sending, now) {
        RowLeavesStreams(slot, ReclaimedRow(rows[slot], Sending), nextToken);
      }
      rows := Reclaim(rows, slot, Sending, now);
    }

    /** A row outside `receiving` moves to another state outside it, and costs no more. */
    lemma RowLeavesStreams(slot: SlotId, row: Row, minted: Token)
      requires Valid() && slot in rows && NoDearer(rows[slot], row, cfg.limit) && minted >= nextToken
      requires rows[slot].state != Receiving && row.state != Receiving
      requires RowShape(slot, rows[slot], streams, nextToken, cfg.limit) ==> RowShape(slot, row, streams, minted, cfg.limit)
      ensures Shaped(rows[slot := row], streams, nextSlot, minted, cfg.limit)
      ensures WithinBudget(rows[slot := row], now, nextSlot, cfg)
      ensures NoneChargedMore(rows, rows[slot := row], now, nextSlot, cfg.limit)
    {
      CheaperRow(rows, now, nextSlot, cfg, slot, row);
      TokensAreMinted();
      SlotMoves(rows, streams, rows[slot := row], streams, nextSlot, nextToken, minted, cfg.limit, slot, nextToken);
    }

    /** `claim_uploads_for_send`, one slot: stored -> sending. */
    method ClaimForSend(slot: SlotId) returns (won: bool)
      requires Valid()
      modifies `rows, `nextToken
      ensures Valid() && nextToken == old(nextToken) + 1
      ensures won <==> old(Matches(rows, slot, Stored, None))
      ensures rows == Claim(old(rows), slot, Stored, Sending, None, old(nextToken), now)
      ensures won ==> Matches(rows, slot, Sending, Some(old(nextToken))) && HeldUntil(rows, slot, Sending, now + LEASE_SECONDS)
    {
      won := Matches(rows, slot, Stored, None);
      if won {
        RowLeavesStreams(slot, Entered(rows[slot], Sending, nextToken, now), nextToken + 1);
      } else {
        MintedMore();
      }
      rows := Claim(rows, slot, Stored, Sending, None, nextToken, now);
      nextToken := nextToken + 1;
    }

    lemma MintedMore()
      requires Valid()
      ensures Shaped(rows, streams, nextSlot, nextToken + 1, cfg.limit)
    {
      forall id | id in rows ensures RowShape(id, rows[id], streams, nextToken + 1, cfg.limit) {
        assert RowShape(id, rows[id], streams, nextToken, cfg.limit);
      }
      forall k | k in streams ensures streams[k].slot < nextSlot && StreamFits(k, streams[k], rows, nextToken + 1, cfg.limit) {
        assert StreamFits(k, streams[k], rows, nextToken, cfg.limit);
      }
    }

    /** One slot of `settle_uploads`: sending -> consumed, stored or send_unknown. */
    method SettleSlot(slot: SlotId, outcome: Outcome)
      requires Valid()
      modifies `rows
      ensures Valid() && rows == Settle(old(rows), slot, outcome)
      ensures NoneChargedMore(old(rows), rows, now, nextSlot, cfg.limit)
    {
      if Matches(rows, slot, Sending, None) {
        RowLeavesStreams(slot, Settle(rows, slot, outcome)[slot], nextToken);
      }
      rows := Settle(rows, slot, outcome);
    }

    /** The sweep deletes a row, and empties every scratch file of the slot. */
    method Delete(slot: SlotId)
      requires Valid()
      modifies `rows, `streams
      ensures Valid() && rows == old(rows) - {slot} && streams == Discarded(old(streams), slot)
      ensures streams.Keys == old(streams.Keys)
      ensures forall k :: k in streams ==>
                streams[k] == if old(streams)[k].slot == slot then old(streams)[k].(disk := 0) else old(streams)[k]
    {
      StillWithinBudget(rows, now, rows - {slot}, now, nextSlot, cfg);
      var left, kept := rows - {slot}, Discarded(streams, slot);
      forall id | id in left ensures id < nextSlot && RowShape(id, left[id], kept, nextToken, cfg.limit) {
        assert RowShape(id, rows[id], streams, nextToken, cfg.limit);
      }
      forall k | k in kept ensures kept[k].slot < nextSlot && StreamFits(k, kept[k], left, nextToken, cfg.limit) {
        assert StreamFits(k, streams[k], rows, nextToken, cfg.limit);
      }
      rows, streams := left, kept;
    }

    /** Time passes: rows only expire. */
    method Pass(seconds: nat)
      requires Valid()
      modifies `now
      ensures Valid() && now == old(now) + seconds
    {
      StillWithinBudget(rows, now, rows, now + seconds, nextSlot, cfg);
      now := now + seconds;
    }

    // ---- streaming a body -------------------------------------------------------------------

    lemma HandBackFits(t: Token)
      requires Valid() && t in streams
      ensures Shaped(HandBack(rows, streams[t].slot, t), streams - {t}, nextSlot, nextToken, cfg.limit)
      ensures WithinBudget(HandBack(rows, streams[t].slot, t), now, nextSlot, cfg)
      ensures NoneChargedMore(rows, HandBack(rows, streams[t].slot, t), now, nextSlot, cfg.limit)
    {
      var slot := streams[t].slot;
      if Matches(rows, slot, Receiving, Some(t)) {
        assert RowShape(slot, rows[slot], streams, nextToken, cfg.limit);
        CheaperRow(rows, now, nextSlot, cfg, slot, HandBack(rows, slot, t)[slot]);
      } else if slot in rows {
        assert RowShape(slot, rows[slot], streams, nextToken, cfg.limit);
      }
      SlotMoves(rows, streams, HandBack(rows, slot, t), streams - {t}, nextSlot, nextToken, nextToken, cfg.limit, slot, t);
    }

    /**
     The except block of `store_upload_stream`: hand the slot back, if it is still this attempt's. It may
     start in the middle of a stretch, where the slot's own renewed charge can exceed the budget.
     */
    method Abandon(t: Token)
      requires t in streams
      requires Shaped(HandBack(rows, streams[t].slot, t), streams - {t}, nextSlot, nextToken, cfg.limit)
      requires WithinBudget(HandBack(rows, streams[t].slot, t), now, nextSlot, cfg)
      modifies `rows, `streams
      ensures Valid()
      ensures streams == old(streams) - {t} && rows == HandBack(old(rows), old(streams)[t].slot, t)
    {
      rows := HandBack(rows, streams[t].slot, t);
      streams := streams - {t};
    }

    /** The client went away while the attempt was waiting for a chunk. */
    method Disconnect(t: Token)
      requires Valid() && t in streams
      modifies `rows, `streams
      ensures Valid()
      ensures streams == old(streams) - {t} && rows == HandBack(old(rows), old(streams)[t].slot, t)
    {
      HandBackFits(t);
      Abandon(t);
    }

    /** Everything `store_upload_stream` does before its first await. */
    method OpenPut(slot: SlotId, user: nat) returns (r: Answer<Token>)
      requires Valid()
      modifies `rows, `streams, `nextToken
      ensures Valid()
      ensures r == Refused(NotFound) <==> old(slot !in rows || rows[slot].owner != user || Expired(rows[slot], now))
      ensures r.Ok? <==> old(slot in rows && rows[slot].owner == user && !Expired(rows[slot], now)
                             && (rows[slot].state == Pending || Lapsed(rows, slot, Receiving, now)))
      ensures r == Refused(DeliveryUnknown) <==>
                old(slot in rows && rows[slot].owner == user && !Expired(rows[slot], now)
                    && (rows[slot].state == SendUnknown || Lapsed(rows, slot, Sending, now)))
      ensures r.Ok? || r.why in {NotFound, DeliveryUnknown, AlreadyReceived}
      ensures r.Refused? ==> streams == old(streams) && nextToken == old(nextToken)
                             && rows == old(if r.why == DeliveryUnknown then Reclaim(rows, slot, Sending, now) else rows)
      ensures r.Ok? ==>
                && r.value == old(nextToken) && nextToken == r.value + 1
                && rows == ClaimReceive(old(Reclaim(rows, slot, Receiving, now)), slot, r.value, now)
                && streams == old(if Lapsed(rows, slot, Receiving, now) then Truncated(streams, rows[slot].token) else streams)
                                [r.value := Stream(slot, user, rows[slot].declared, 0,
                                                   Allowance(rows, user, now, nextSlot, slot, cfg), RECHECK_BYTES, 0)]
      ensures r.Ok? ==> Matches(rows, slot, Receiving, Some(r.value)) && HeldUntil(rows, slot, Receiving, now + LEASE_SECONDS)
    {
      if slot !in rows || rows[slot].owner != user || Expired(rows[slot], now) { return Refused(NotFound); }
      if rows[slot].state != Pending {
        ReclaimLapsed(slot);
      }
      if rows[slot].state == SendUnknown { return Refused(DeliveryUnknown); }
      if rows[slot].state != Pending { return Refused(AlreadyReceived); }
      var t := StartStream(slot);
      r := Ok(t);
    }

    /** The claim and the first allowance, for a slot just found pending. */
    method StartStream(slot: SlotId) returns (t: Token)
      requires Valid() && Matches(rows, slot, Pending, None)
      modifies `rows, `streams, `nextToken
      ensures Valid() && t == old(nextToken) && nextToken == t + 1
      ensures rows == ClaimReceive(old(rows), slot, t, now)
      ensures streams == old(streams)[t := Stream(slot, rows[slot].owner, rows[slot].declared, 0,
                                                  Allowance(rows, rows[slot].owner, now, nextSlot, slot, cfg), RECHECK_BYTES, 0)]
      ensures Matches(rows, slot, Receiving, Some(t)) && HeldUntil(rows, slot, Receiving, now + LEASE_SECONDS)
    {
      t := nextToken;
      var row := ClaimReceive(rows, slot, t, now)[slot];
      var _, spent := Totals(row.owner, Some(slot));
      SameElsewhere(rows, rows[slot := row], row.owner, now, cfg.limit, nextSlot, slot);
      var allowance := if spent > cfg.budget then 0 else Min(cfg.limit, cfg.budget - spent);
      var st := Stream(slot, row.owner, row.declared, 0, allowance, RECHECK_BYTES, 0);
      assert RowShape(slot, rows[slot], streams, t, cfg.limit);
      TokensAreMinted();
      CheaperRow(rows, now, nextSlot, cfg, slot, row);
      SlotMoves(rows, streams, rows[slot := row], streams[t := st], nextSlot, t, t + 1, cfg.limit, slot, t);
      streams := streams[t := st];
      rows := rows[slot := row];
      nextToken := t + 1;
    }

    /** The row as a renewal leaves it is well shaped beside the stream as it will go on. */
    lemma RenewedShape(t: Token, total: nat, allowance: nat)
      requires Valid() && t in streams && Matches(rows, streams[t].slot, Receiving, Some(t))
      requires streams[t].total <= total <= allowance <= cfg.limit
      ensures Shaped(Renew(rows, streams[t].slot, t, total, now), streams[t := Rechecked(streams[t], total, allowance)],
                     nextSlot, nextToken, cfg.limit)
    {
      var st := streams[t];
      assert RowShape(st.slot, rows[st.slot], streams, nextToken, cfg.limit);
      assert StreamFits(t, st, rows, nextToken, cfg.limit);
      SlotMoves(rows, streams, Renew(rows, st.slot, t, total, now), streams[t := Rechecked(st, total, allowance)],
                nextSlot, nextToken, nextToken, cfg.limit, st.slot, t);
    }

    /** What the new allowance accepts fits beside everything else, promise and bytes alike. */
    lemma RenewedFits(t: Token, total: nat)
      requires Valid() && t in streams && Matches(rows, streams[t].slot, Receiving, Some(t))
      requires streams[t].total <= total
      requires var t' := Renew(rows, streams[t].slot, t, total, now);
               total <= Allowance(t', streams[t].owner, now, nextSlot, streams[t].slot, cfg)
      ensures WithinBudget(Renew(rows, streams[t].slot, t, total, now), now, nextSlot, cfg)
    {
      var st := streams[t];
      var t' := Renew(rows, st.slot, t, total, now);
      assert RowShape(st.slot, rows[st.slot], streams, nextToken, cfg.limit);
      SameElsewhere(rows, t', st.owner, now, cfg.limit, nextSlot, st.slot);
      if Live(rows[st.slot], st.owner, now) && total > 0 {
        ElsewherePlusOwn(rows, st.owner, now, cfg.limit, nextSlot, st.slot);
        assert Within(rows, st.owner, now, nextSlot, cfg);
        FittingRow(rows, now, nextSlot, cfg, st.slot, t'[st.slot]);
      } else {
        StillWithinBudget(rows, now, t', now, nextSlot, cfg);
      }
    }

    /** A chunk that stays below the recheck. */
    lemma StreamsOnward(t: Token, total: nat)
      requires Valid() && t in streams && streams[t].total <= total <= streams[t].allowance && total < streams[t].nextRecheck
      ensures Shaped(rows, streams[t := Extended(streams[t], total)], nextSlot, nextToken, cfg.limit)
    {
      var st := streams[t];
      assert StreamFits(t, st, rows, nextToken, cfg.limit);
      if st.slot in rows {
        assert RowShape(st.slot, rows[st.slot], streams, nextToken, cfg.limit);
      }
      SlotMoves(rows, streams, rows, streams[t := Extended(st, total)], nextSlot, nextToken, nextToken, cfg.limit, st.slot, t);
    }

    /** One chunk: from the moment it arrives to the next await, or to the refusal. */
    method Receive(t: Token, length: nat) returns (ok: bool)
      requires Valid() && t in streams
      modifies `rows, `streams
      ensures Valid()
      ensures var st := old(streams)[t];
              var total := st.total + length;
              var recheck := length > 0 && total >= st.nextRecheck;
              var renewed := old(Renew(rows, streams[t].slot, t, streams[t].total + length, now));
              var allowance := Allowance(renewed, st.owner, now, nextSlot, st.slot, cfg);
              && (ok <==> total <= st.allowance
                          && (recheck ==> old(Matches(rows, streams[t].slot, Receiving, Some(t))) && total <= allowance))
              && (ok ==> rows == if recheck then renewed else old(rows))
              && (ok ==> streams == old(streams)[t := if recheck then Rechecked(st, total, allowance) else Extended(st, total)])
              && (!ok ==> rows == HandBack(old(rows), st.slot, t) && streams == old(streams) - {t})
      ensures var st := old(streams)[t];
              var total := st.total + length;
              length > 0 && total >= st.nextRecheck ==>
                && (ok <==> && old(Matches(rows, streams[t].slot, Receiving, Some(t))) && total <= st.allowance && total <= cfg.limit
                            && old(Spent(rows - {streams[t].slot}, streams[t].owner, now, cfg.limit, nextSlot)) + total <= cfg.budget)
                && (ok ==> Publishes(rows, st.slot, t, total) && HeldUntil(rows, st.slot, Receiving, now + LEASE_SECONDS))
    {
      var st := streams[t];
      if length == 0 {
        assert streams == streams[t := Extended(st, st.total)];
        return true;
      }
      HandBackFits(t);
      var total := st.total + length;
      if total > st.allowance {
        Abandon(t);
        return false;
      }
      if total < st.nextRecheck {
        StreamsOnward(t, total);
        streams := streams[t := Extended(st, total)];
        return true;
      }
      if !Matches(rows, st.slot, Receiving, Some(t)) {
        Abandon(t);
        return false;
      }
      RenewedAllowance(t, total);
      ok := Recheck(t, total);
    }

    /** What the second look allows depends only on what is spent elsewhere. */
    lemma RenewedAllowance(t: Token, total: nat)
      requires t in streams && total > 0
      ensures var st := streams[t];
              total <= Allowance(Renew(rows, st.slot, t, total, now), st.owner, now, nextSlot, st.slot, cfg)
              <==> total <= cfg.limit && Spent(rows - {st.slot}, st.owner, now, cfg.limit, nextSlot) + total <= cfg.budget
    {
      var st := streams[t];
      var renewed := Renew(rows, st.slot, t, total, now);
      assert renewed - {st.slot} == rows - {st.slot};
      AllowanceExactly(renewed, st.owner, now, nextSlot, st.slot, cfg, total);
    }

    /** The row shows how much has arrived, and still names its holder. */
    predicate Publishes(t: Table, slot: SlotId, holder: Token, total: nat) {
      Matches(t, slot, Receiving, Some(holder)) && t[slot].received == total
    }

    /** The renewal and the second look at the allowance. */
    method Recheck(t: Token, total: nat) returns (ok: bool)
      requires Valid() && t in streams && Matches(rows, streams[t].slot, Receiving, Some(t))
      requires streams[t].total <= total <= cfg.limit
      modifies `rows, `streams
      ensures Valid()
      ensures var st := old(streams)[t];
              var renewed := old(Renew(rows, streams[t].slot, t, total, now));
              var allowance := Allowance(renewed, st.owner, now, nextSlot, st.slot, cfg);
              && (ok <==> total <= allowance)
              && (ok ==> rows == renewed)
              && (ok ==> streams == old(streams)[t := Rechecked(st, total, allowance)])
              && (!ok ==> rows == HandBack(old(rows), st.slot, t) && streams == old(streams) - {t})
      ensures ok ==> Publishes(rows, old(streams)[t].slot, t, total) && HeldUntil(rows, old(streams)[t].slot, Receiving, now + LEASE_SECONDS)
    {
      var st := streams[t];
      ghost var was := rows;
      ghost var renewed := Renew(rows, st.slot, t, total, now);
      HandBackFits(t);
      if total <= Allowance(renewed, st.owner, now, nextSlot, st.slot, cfg) {
        RenewedFits(t, total);
        RenewedShape(t, total, Allowance(renewed, st.owner, now, nextSlot, st.slot, cfg));
      }
      rows := Renew(rows, st.slot, t, total, now);
      assert HandBack(rows, st.slot, t) == HandBack(was, st.slot, t);
      var _, spent := Totals(st.owner, Some(st.slot));
      var allowance := if spent > cfg.budget then 0 else Min(cfg.limit, cfg.budget - spent);
      ok := total <= allowance;
      if ok {
        streams := streams[t := Rechecked(st, total, allowance)];
      } else {
        Abandon(t);
      }
    }

    /** What a complete body must satisfy before it is promoted: the declared size and digest. */
    predicate Honest(st: Stream, declaredDigest: Option<Digest>, digest: Digest)
    {
      (st.declared.Some? ==> st.declared.value == st.total) && (declaredDigest.Some? ==> declaredDigest.value == digest)
    }

    lemma PromotionFits(t: Token, digest: Digest)
      requires Valid() && t in streams && Matches(rows, streams[t].slot, Receiving, Some(t))
      requires streams[t].declared.Some? ==> streams[t].declared.value == streams[t].total
      ensures var t' := Promote(rows, streams[t].slot, t, streams[t].total, digest);
              && Shaped(t', streams - {t}, nextSlot, nextToken, cfg.limit) && WithinBudget(t', now, nextSlot, cfg)
              && NoneChargedMore(rows, t', now, nextSlot, cfg.limit)
    {
      var st := streams[t];
      var promoted := Promote(rows, st.slot, t, st.total, digest);
      assert RowShape(st.slot, rows[st.slot], streams, nextToken, cfg.limit);
      assert StreamFits(t, st, rows, nextToken, cfg.limit);
      CheaperRow(rows, now, nextSlot, cfg, st.slot, promoted[st.slot]);
      SlotMoves(rows, streams, promoted, streams - {t}, nextSlot, nextToken, nextToken, cfg.limit, st.slot, t);
    }

    /** The end of the body: verify, claim `stored`, move the file, or hand the slot back. */
    method Finish(t: Token, declaredDigest: Option<Digest>, digest: Digest, replaced: bool) returns (ok: bool)
      requires Valid() && t in streams
      modifies `rows, `streams
      ensures Valid() && streams == old(streams) - {t}
      ensures ok <==>
                && (old(streams)[t].declared == None || old(streams)[t].declared == Some(old(streams)[t].total))
                && (declaredDigest == None || declaredDigest == Some(digest))
                && old(Matches(rows, streams[t].slot, Receiving, Some(t))) && replaced
      ensures rows == if ok then Promote(old(rows), old(streams)[t].slot, t, old(streams)[t].total, digest)
                      else HandBack(old(rows), old(streams)[t].slot, t)
      ensures NoneChargedMore(old(rows), rows, now, nextSlot, cfg.limit)
      ensures ok && old(rows[streams[t].slot].expires) > now ==>
                Spent(rows, old(streams)[t].owner, now, cfg.limit, nextSlot)
                == old(Spent(rows - {streams[t].slot}, streams[t].owner, now, cfg.limit, nextSlot)) + old(streams)[t].total
    {
      var st := streams[t];
      HandBackFits(t);
      if !Honest(st, declaredDigest, digest) || !Matches(rows, st.slot, Receiving, Some(t)) {
        Abandon(t);
        return false;
      }
      PromotionFits(t, digest);
      assert RowShape(st.slot, rows[st.slot], streams, nextToken, cfg.limit);
      RollbackUndoesPromotion(rows, st.slot, t, st.total, digest);
      rows := Promote(rows, st.slot, t, st.total, digest);
      if !replaced {
        rows := Unpromote(rows, st.slot);
        Abandon(t);
        return false;
      }
      if rows[st.slot].expires > now { PromotedTotal(old(rows), rows, t, digest); }
      streams := streams - {t};
      ok := true;
    }

    /** A promoted slot costs what arrived. */
    lemma PromotedTotal(t: Table, t': Table, k: Token, digest: Digest)
      requires Shaped(t, streams, nextSlot, nextToken, cfg.limit) && k in streams && Matches(t, streams[k].slot, Receiving, Some(k))
      requires t' == Promote(t, streams[k].slot, k, streams[k].total, digest) && t[streams[k].slot].expires > now
      ensures Spent(t', streams[k].owner, now, cfg.limit, nextSlot)
              == Spent(t - {streams[k].slot}, streams[k].owner, now, cfg.limit, nextSlot) + streams[k].total
    {
      var slot, owner := streams[k].slot, streams[k].owner;
      assert RowShape(slot, t[slot], streams, nextToken, cfg.limit);
      CommittedIsSpent(t', owner, now, cfg.limit, nextSlot);
      ElsewherePlusOwn(t', owner, now, cfg.limit, nextSlot, slot);
      ElsewhereIsTheRest(t', owner, now, cfg.limit, nextSlot, slot);
      assert t' - {slot} == t - {slot};
    }
  }

  const ONLY_SLOT := Config(1, 5, 5, 2000)

  function Streaming(total: nat, disk: nat): Stream { Stream(0, 0, None, total, 5, RECHECK_BYTES, disk) }

  function Claimed(k: Token, lease: Time): Row {
    NewRow(0, None, 2000).(state := Receiving, lease := Some(lease), token := Some(k))
  }

  lemma WholeBudgetIsFree(t: Table, now: Time)
    ensures Allowance(t, 0, now, 1, 0, ONLY_SLOT) == 5
  {
    assert Elsewhere(t, 0, now, 5, 1, 0) == Elsewhere(t, 0, now, 5, 0, 0);
  }

  /** A body is opened, ... */
  method AnOpenBody() returns (u: UploadService)
    ensures fresh(u) && u.Valid() && u.cfg == ONLY_SLOT && u.now == 0 && u.nextSlot == 1 && u.nextToken == 1
    ensures u.rows == map[0 := Claimed(0, 300)] && u.streams == map[0 := Streaming(0, 0)]
  {
    u := new UploadService(ONLY_SLOT);
    var slot := u.Begin(0, None);
    assert u.rows == map[0 := NewRow(0, None, 2000)];
    var a := u.OpenPut(0, 0);
    WholeBudgetIsFree(u.rows, 0);
  }

  /** ... stalls after its first byte ... */
  method AStalledBody() returns (u: UploadService)
    ensures fresh(u) && u.Valid() && u.cfg == ONLY_SLOT && u.now == 300 && u.nextSlot == 1 && u.nextToken == 1
    ensures u.rows == map[0 := Claimed(0, 300)] && u.streams == map[0 := Streaming(1, 1)]
  {
    u := AnOpenBody();
    var first := u.Receive(0, 1);
    u.Pass(300);
  }

  /** ... until a retry takes its slot, ... */
  method ARetriedBody() returns (u: UploadService)
    ensures fresh(u) && u.Valid() && u.cfg == ONLY_SLOT && u.now == 300 && u.nextSlot == 1 && u.nextToken == 2
    ensures u.rows == map[0 := Claimed(1, 600)]
    ensures u.streams == map[0 := Streaming(1, 0), 1 := Streaming(0, 0)]
  {
    u := AStalledBody();
    var b := u.OpenPut(0, 0);
    WholeBudgetIsFree(u.rows, 300);
  }

  /**
   ... fills it to the budget and is promoted. Then the first one wakes up and writes on, before its next
   recheck would stop it: more on the volume than the budget, and no slot receiving.
   */
  method ADispossessedBodyOverruns() returns (u: UploadService)
    ensures u.Valid() && u.cfg.budget == 5
    ensures ReceivingSlots(u.rows, 0, u.now, u.nextSlot) == 0 && !NoneDispossessed(u.rows, u.streams, 0, u.now, u.nextSlot)
    ensures Written(u.rows, u.streams, 0, u.now, u.nextToken, u.nextSlot) == 9
  {
    u := ARetriedBody();
    var second := u.Receive(1, 5);
    var promoted := u.Finish(1, None, Digest([]), true);
    assert u.streams == map[0 := Streaming(1, 0)];
    var third := u.Receive(0, 4);
    assert u.streams == map[0 := Streaming(5, 4)] && OpenOn(u.streams, 0, 0);
    assert StreamBytes(u.streams, 0, 2) == StreamBytes(u.streams, 0, 1) == 4;
    assert Written(u.rows, u.streams, 0, 300, 2, 0) == 0;
  }
}
