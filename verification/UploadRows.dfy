/**
 The rows of `outbound_uploads` and the conditional UPDATE that moves them.

 Every state change of src/services/upload_service.py is one `UPDATE .. WHERE state = expected`
 (optionally also `AND lease_token = holder`). Here each of them is a function from table to table,
 so that the interleaved protocol, the byte budget and the sweep all speak of the same statements.
 */
module UploadRows {
  import opened Common

  type SlotId = nat   // the autoincremented primary key, so id order is creation order
  type Token = nat    // a lease token: 16 random bytes, minted per claim and never reused
  type Time = int
  type Bytes = seq<bv8>

  /** SHA-256 as an ideal hash: equal digests only for equal bytes. */
  datatype Digest = Digest(preimage: Bytes)

  datatype SlotState = Pending | Receiving | Stored | Sending | Consumed | SendUnknown

  const LEASE_SECONDS: int := 300

  predicate InFlight(s: SlotState) { s == Receiving || s == Sending }

  predicate Terminal(s: SlotState) { s == Consumed || s == SendUnknown }

  /** Where a lapsed in-flight claim goes: a body can be sent again, a message cannot. */
  function Fallback(s: SlotState): SlotState
    requires InFlight(s)
  {
    if s == Receiving then Pending else SendUnknown
  }

  datatype Row = Row(
    owner: nat,
    declared: Option<nat>,
    state: SlotState,
    lease: Option<Time>,
    token: Option<Token>,
    expires: Time,
    size: Option<nat>,
    received: nat,
    digest: Option<Digest>,
    path: bool)   // whether storage_path is recorded

  type Table = map<SlotId, Row>

  function NewRow(owner: nat, declared: Option<nat>, expires: Time): Row {
    Row(owner, declared, Pending, None, None, expires, None, 0, None, false)
  }

  predicate Expired(row: Row, now: Time) { row.expires <= now }

  /** The WHERE clause of `_claim`. `holder == None` means the clause is not fenced on the token. */
  predicate Matches(t: Table, id: SlotId, expected: SlotState, holder: Option<Token>) {
    id in t && t[id].state == expected && (holder.Some? ==> t[id].token == holder)
  }

  /** The columns `_claim` always writes: a fresh lease and token on entry, none on exit. */
  function Entered(row: Row, target: SlotState, minted: Token, now: Time): Row {
    if InFlight(target)
    then row.(state := target, lease := Some(now + LEASE_SECONDS), token := Some(minted))
    else row.(state := target, lease := None, token := None)
  }

  /** `_claim` with no extra columns. */
  function Claim(t: Table, id: SlotId, expected: SlotState, target: SlotState,
                 holder: Option<Token>, minted: Token, now: Time): Table
  {
    if Matches(t, id, expected, holder) then t[id := Entered(t[id], target, minted, now)] else t
  }

  /** The PUT's first claim: pending -> receiving, the running total back to zero. */
  function ClaimReceive(t: Table, id: SlotId, minted: Token, now: Time): Table {
    if Matches(t, id, Pending, None)
    then t[id := Entered(t[id], Receiving, minted, now).(received := 0)] else t
  }

  /** The failure path of a PUT: receiving -> pending, fenced on its own claim. */
  function HandBack(t: Table, id: SlotId, holder: Token): Table {
    if Matches(t, id, Receiving, Some(holder))
    then t[id := Entered(t[id], Pending, 0, 0).(received := 0)] else t
  }

  /** The promotion: receiving -> stored, fenced, recording what arrived. */
  function Promote(t: Table, id: SlotId, holder: Token, size: nat, digest: Digest): Table {
    if Matches(t, id, Receiving, Some(holder))
    then t[id := Entered(t[id], Stored, 0, 0).(
                   size := Some(size), received := size, digest := Some(digest), path := true)]
    else t
  }

  /** A promotion whose os.replace failed: stored -> pending, NOT fenced (a stored row has no token). */
  function Unpromote(t: Table, id: SlotId): Table {
    if Matches(t, id, Stored, None)
    then t[id := Entered(t[id], Pending, 0, 0).(size := None, received := 0, digest := None, path := false)]
    else t
  }

  /** `_renew`: fenced on state and holder. */
  function Renew(t: Table, id: SlotId, holder: Token, received: nat, now: Time): Table {
    if Matches(t, id, Receiving, Some(holder))
    then t[id := t[id].(received := received, lease := Some(now + LEASE_SECONDS))] else t
  }

  /** The WHERE clause of `_reclaim_lapsed`. */
  predicate Lapsed(t: Table, id: SlotId, from: SlotState, now: Time) {
    id in t && t[id].state == from && t[id].lease.Some? && t[id].lease.value <= now
  }

  /** A lapsed claim taken away: the slot falls back, and the token that named its holder is cleared. */
  function ReclaimedRow(row: Row, from: SlotState): Row
    requires InFlight(from)
  {
    row.(state := Fallback(from), lease := None, token := None,
         received := if from == Receiving then 0 else row.received)
  }

  function Reclaim(t: Table, id: SlotId, from: SlotState, now: Time): Table
    requires InFlight(from)
  {
    if Lapsed(t, id, from, now) then t[id := ReclaimedRow(t[id], from)] else t
  }

  datatype Outcome = Sent | Failed | Unknown

  /** What each settlement does with a slot of a send. */
  function SettledState(outcome: Outcome): SlotState {
    match outcome
    case Sent => Consumed
    case Failed => Stored
    case Unknown => SendUnknown
  }

  /** A settlement: sending -> consumed / stored / send_unknown, NOT fenced on the holder. */
  function Settle(t: Table, id: SlotId, outcome: Outcome): Table {
    Claim(t, id, Sending, SettledState(outcome), None, 0, 0)
  }

  function ClearPath(t: Table, id: SlotId): Table {
    if id in t then t[id := t[id].(path := false)] else t
  }

  /** A row the sweep may select: spent or expired, but not a retained `send_unknown`. */
  predicate Actionable(row: Row, cutoff: Time) {
    (Terminal(row.state) || row.expires <= cutoff) && !(row.state == SendUnknown && row.expires > cutoff)
  }

  /** What a sender reported: its success flag and its delivery_state, if any. */
  datatype Report = Report(success: bool, delivery: Option<string>)

  /** `delivery_outcome`: only an absent state or "failed" is a definite non-delivery. */
  function DeliveryOutcome(r: Report): Outcome {
    if r.success then Sent
    else if r.delivery.None? || r.delivery.value == "failed" then Failed
    else Unknown
  }

  // ---- what the statements mean for each other ------------------------------------------------

  /** Of two requests racing for one transition, the second finds nothing to move. */
  lemma OneWinner(t: Table, id: SlotId, expected: SlotState, target: SlotState, first: Token, second: Token, now: Time, later: Time)
    requires expected != target
    ensures var t' := Claim(t, id, expected, target, None, first, now);
            Claim(t', id, expected, target, None, second, later) == t'
  {
  }

  predicate Unleased(row: Row) { row.lease.None? && row.token.None? }

  /** A PUT that fails leaves the slot exactly as the reservation left it. */
  lemma HandBackUndoesClaim(t: Table, id: SlotId, k: Token, now: Time)
    requires Matches(t, id, Pending, None) && Unleased(t[id]) && t[id].received == 0
    ensures HandBack(ClaimReceive(t, id, k, now), id, k) == t
  {
    assert HandBack(ClaimReceive(t, id, k, now), id, k)[id] == t[id];
  }

  /** A refused promotion leaves what handing the slot back would have left. */
  lemma RollbackUndoesPromotion(t: Table, id: SlotId, k: Token, size: nat, digest: Digest)
    requires Matches(t, id, Receiving, Some(k)) && t[id].size.None? && t[id].digest.None? && !t[id].path
    ensures Unpromote(Promote(t, id, k, size, digest), id) == HandBack(t, id, k)
  {
    assert Unpromote(Promote(t, id, k, size, digest), id)[id] == HandBack(t, id, k)[id];
  }

  /** A send that did not happen leaves the slot exactly as it found it. */
  lemma FailedSendUndoesClaim(t: Table, id: SlotId, k: Token, now: Time)
    requires Matches(t, id, Stored, None) && Unleased(t[id])
    ensures Settle(Claim(t, id, Stored, Sending, None, k, now), id, Failed) == t
  {
    assert Settle(Claim(t, id, Stored, Sending, None, k, now), id, Failed)[id] == t[id];
  }

  /** A PUT that stalls, however far it got, leaves the slot exactly as the reservation left it. */
  lemma ReclaimUndoesPut(t: Table, id: SlotId, k: Token, now: Time, n: nat, renewed: Time, later: Time)
    requires Matches(t, id, Pending, None) && Unleased(t[id]) && t[id].received == 0
    requires later >= renewed + LEASE_SECONDS
    ensures Reclaim(Renew(ClaimReceive(t, id, k, now), id, k, n, renewed), id, Receiving, later) == t
  {
    assert Reclaim(Renew(ClaimReceive(t, id, k, now), id, k, n, renewed), id, Receiving, later)[id] == t[id];
  }

  /** A send that stalls retires its slot, and forgets nothing of what arrived. */
  lemma ReclaimRetiresSend(t: Table, id: SlotId, k: Token, now: Time, later: Time)
    requires Matches(t, id, Stored, None) && Unleased(t[id]) && later >= now + LEASE_SECONDS
    ensures Reclaim(Claim(t, id, Stored, Sending, None, k, now), id, Sending, later) == t[id := t[id].(state := SendUnknown)]
  {
    assert Reclaim(Claim(t, id, Stored, Sending, None, k, now), id, Sending, later)[id] == t[id].(state := SendUnknown);
  }

  /** The holder a reclaim dispossesses can neither renew, nor promote, nor hand back, until somebody claims the slot anew. */
  lemma ReclaimedHolderIsFenced(t: Table, id: SlotId, now: Time, k: Token, n: nat, digest: Digest, later: Time)
    requires Lapsed(t, id, Receiving, now)
    ensures var t' := Reclaim(t, id, Receiving, now);
            && Renew(t', id, k, n, later) == t' && Promote(t', id, k, n, digest) == t' && HandBack(t', id, k) == t'
            && Matches(t', id, Pending, None)
  {
  }

  /** Nor can it against the attempt that claims the slot next. */
  lemma SuccessorIsSafe(t: Table, id: SlotId, now: Time, k: Token, successor: Token, n: nat, digest: Digest, later: Time)
    requires Lapsed(t, id, Receiving, now) && k != successor
    ensures var t' := ClaimReceive(Reclaim(t, id, Receiving, now), id, successor, later);
            && Renew(t', id, k, n, later) == t' && Promote(t', id, k, n, digest) == t' && HandBack(t', id, k) == t'
            && Matches(t', id, Receiving, Some(successor)) && t'[id].received == 0
            && t'[id].lease == Some(later + LEASE_SECONDS)
  {
  }

  /** A slot is spent, given back or retired exactly as the report demands: only a definite failure gives it back. */
  lemma SettledAsReported(t: Table, id: SlotId, r: Report)
    requires Matches(t, id, Sending, None)
    ensures var row := Settle(t, id, DeliveryOutcome(r))[id];
            && (row.state == Consumed <==> r.success)
            && (row.state == Stored <==> !r.success && (r.delivery.None? || r.delivery.value == "failed"))
            && (row.state == SendUnknown <==> !r.success && r.delivery.Some? && r.delivery.value != "failed")
            && Unleased(row)
  {
  }
}
