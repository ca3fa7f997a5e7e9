/**
 How attempts, sends, reclaims and sweeps come to their ends from any state of UploadProtocol, when nothing
 gets in between, and what they leave.
 */
module UploadEndings {
  import opened Common
  import opened UploadRows
  import opened UploadProtocol

  // ---- a PUT that fails -----------------------------------------------------------------------

  /** The row as its reservation left it. */
  function Unfilled(row: Row): Row {
    row.(state := Pending, lease := None, token := None, received := 0, size := None, digest := None, path := false)
  }

  /** The attempt has the claim of a slot that has never been filled. */
  predicate Holds(v: Volume, t: Token) {
    && t in v.puts && Matches(v.rows, v.puts[t].slot, Receiving, Some(t))
    && v.rows[v.puts[t].slot].size.None? && v.rows[v.puts[t].slot].digest.None? && !v.rows[v.puts[t].slot].path
    && v.puts[t].slot !in v.winner
  }

  /** The attempt is over, its scratch file gone, its slot as reserved, and nothing else has changed. */
  predicate LeavesNothing(v: Volume, v': Volume, t: Token)
    requires t in v.puts && v.puts[t].slot in v.rows
  {
    var p := v.puts[t];
    v' == v.(puts := v.puts[t := p.(phase := PutEnded)], parts := v.parts - {t}, rows := v.rows[p.slot := Unfilled(v.rows[p.slot])])
  }

  lemma FailingPutEnds(v: Volume, t: Token)
    requires PutIn(v, t, Failing) && v.puts[t].slot in v.rows
    ensures HandedBack(Unlinking(v, t), t)
            == v.(puts := v.puts[t := v.puts[t].(phase := PutEnded)], parts := v.parts - {t}, rows := HandBack(v.rows, v.puts[t].slot, t))
  {
  }

  /** A PUT that gives up while it holds its claim leaves the slot as the reservation left it, and no file. */
  lemma AFailedPutLeavesNothing(v: Volume, t: Token)
    requires (PutIn(v, t, Claimed) || PutIn(v, t, Streaming)) && Holds(v, t)
    ensures LeavesNothing(v, NextPut(NextPut(NextPut(v, t, GiveUp), t, UnlinkOwn), t, HandBackRow), t)
  {
    FailingPutEnds(GivenUp(v, t), t);
    assert HandBack(v.rows, v.puts[t].slot, t)[v.puts[t].slot] == Unfilled(v.rows[v.puts[t].slot]);
  }

  lemma PromotedBack(v: Volume, t: Token)
    requires PutIn(v, t, Streaming) && Holds(v, t)
    ensures var p, v1 := v.puts[t], Replacing(Promoting(v, t), t, false);
            && PutIn(v1, t, RollingBack)
            && RolledBack(v1, t) == v.(puts := v.puts[t := p.(phase := Failing)], rows := v.rows[p.slot := Unfilled(v.rows[p.slot])])
  {
    var p := v.puts[t];
    assert v.winner[p.slot := t] - {p.slot} == v.winner;
  }

  lemma RollsBack(v: Volume, t: Token) returns (v1: Volume)
    requires PutIn(v, t, Streaming) && Holds(v, t)
    ensures v1 == NextPut(NextPut(NextPut(v, t, PromoteRow), t, ReplaceFile(false)), t, Rollback)
    ensures var p := v.puts[t];
            v1 == v.(puts := v.puts[t := p.(phase := Failing)], rows := v.rows[p.slot := Unfilled(v.rows[p.slot])])
  {
    v1 := RolledBack(Replacing(Promoting(v, t), t, false), t);
    PromotedBack(v, t);
  }

  lemma FailingPutCleansUp(v: Volume, t: Token) returns (v1: Volume)
    requires PutIn(v, t, Failing) && v.puts[t].slot in v.rows
    ensures v1 == NextPut(NextPut(v, t, UnlinkOwn), t, HandBackRow)
    ensures v1 == v.(puts := v.puts[t := v.puts[t].(phase := PutEnded)], parts := v.parts - {t}, rows := HandBack(v.rows, v.puts[t].slot, t))
  {
    v1 := HandedBack(Unlinking(v, t), t);
    FailingPutEnds(v, t);
  }

  /** So does one whose file cannot be moved, although its promotion was committed. */
  lemma AFailedMoveLeavesNothing(v: Volume, t: Token)
    requires PutIn(v, t, Streaming) && Holds(v, t)
    ensures var v' := NextPut(NextPut(NextPut(v, t, PromoteRow), t, ReplaceFile(false)), t, Rollback);
            LeavesNothing(v, NextPut(NextPut(v', t, UnlinkOwn), t, HandBackRow), t)
  {
    var v1 := RollsBack(v, t);
    var v2 := FailingPutCleansUp(v1, t);
  }

  // ---- a PUT that goes on ---------------------------------------------------------------------

  /** A renewal of the attempt that holds the slot publishes what has arrived and lasts a whole lease; any other attempt stops there. */
  lemma RenewedExactly(v: Volume, t: Token)
    requires PutIn(v, t, Streaming)
    ensures var p, v' := v.puts[t], Renewed(v, t);
            if p.slot in v.rows && v.rows[p.slot].state == Receiving && v.rows[p.slot].token == Some(t)
            then v' == v.(rows := v.rows[p.slot := v.rows[p.slot].(received := |p.streamed|, lease := Some(v.now + 300))])
            else v' == v.(puts := v.puts[t := p.(phase := Failing)])
  {
  }

  /** A write lands where the attempt is: the file ends there, what was before stays, and a gap is zeros. */
  lemma WrittenAtItsPlace(file: Bytes, offset: nat, chunk: Bytes)
    ensures var after := WriteAt(file, offset, chunk);
            && |after| == offset + |chunk| && after[offset..] == chunk
            && forall i :: 0 <= i < offset ==> after[i] == if i < |file| then file[i] else 0
  {
  }

  /** A send accepts exactly a payload that is on the volume, behind a row with a path, with the recorded size and digest. */
  lemma LoadedExactly(v: Volume, slot: SlotId, body: Bytes)
    ensures Loaded(v, slot) == Some(body) <==>
              && slot in v.rows && v.rows[slot].path && slot in v.dest && v.dest[slot] == body
              && (v.rows[slot].size == None || v.rows[slot].size == Some(|body|))
              && (v.rows[slot].digest == None || v.rows[slot].digest == Some(Digest(body)))
  {
  }

  // ---- a claim past its lease -----------------------------------------------------------------

  /** A reclaim takes a stalled PUT's slot and, truncated and unlinked, its file. */
  lemma AStalledPutIsDispossessed(v: Volume, slot: SlotId, t: Token)
    requires Lapsed(v.rows, slot, Receiving, v.now) && v.rows[slot].token == Some(t) && t in v.puts && t !in v.discards
    requires PendingReclaim(slot, Receiving, Some(t)) !in v.reclaims
    ensures var r := PendingReclaim(slot, Receiving, Some(t));
            var v2 := Reclaimed(ReclaimSelected(v, slot, Receiving), r);
            && v2 == v.(rows := v.rows[slot := v.rows[slot].(state := Pending, lease := None, token := None, received := 0)],
                        discards := v.discards + {t})
            && (t in v.parts ==> Truncated(v2, t).parts == v.parts[t := []])
            && Unlinked(Truncated(v2, t), t).parts == v.parts - {t} && Unlinked(Truncated(v2, t), t).discards == v.discards
  {
    assert v.reclaims + {PendingReclaim(slot, Receiving, Some(t))} - {PendingReclaim(slot, Receiving, Some(t))} == v.reclaims;
    assert v.discards + {t} - {t} == v.discards;
  }

  /** A reclaim that comes before the lease has run out does nothing. */
  lemma AnEarlyReclaimIsNothing(v: Volume, slot: SlotId, from: SlotState)
    requires InFlight(from) && !Lapsed(v.rows, slot, from, v.now)
    requires forall read :: PendingReclaim(slot, from, read) !in v.reclaims
    ensures var v1 := ReclaimSelected(v, slot, from); exists r :: r in v1.reclaims && r.slot == slot && r.from == from && Reclaimed(v1, r) == v
  {
    var r := PendingReclaim(slot, from, if slot in v.rows && v.rows[slot].state == from then v.rows[slot].token else None);
    assert r in ReclaimSelected(v, slot, from).reclaims;
    assert v.reclaims + {r} - {r} == v.reclaims;
  }

  /** The net for stranded payloads frees those of retired and consumed slots, and leaves every other slot alone. */
  lemma AStrandedPayloadIsFreed(v: Volume, slot: SlotId)
    requires slot !in v.frees
    ensures PathCleared(PayloadUnlinked(FreeingAgain(v, slot), slot), slot) ==
              if slot in v.rows && v.rows[slot].state in {Consumed, SendUnknown}
              then v.(rows := v.rows[slot := v.rows[slot].(path := false)], dest := v.dest - {slot}) else v
  {
    assert v.frees + {slot} - {slot} == v.frees;
  }

  /** A reclaim retires a stalled send's slot for good, and frees its payload. */
  lemma AStalledSendIsRetired(v: Volume, slot: SlotId)
    requires Lapsed(v.rows, slot, Sending, v.now) && slot !in v.frees
    requires PendingReclaim(slot, Sending, v.rows[slot].token) !in v.reclaims
    ensures var r := PendingReclaim(slot, Sending, v.rows[slot].token);
            PathCleared(PayloadUnlinked(Reclaimed(ReclaimSelected(v, slot, Sending), r), slot), slot)
            == v.(rows := v.rows[slot := v.rows[slot].(state := SendUnknown, lease := None, token := None, path := false)],
                  dest := v.dest - {slot})
  {
    var r := PendingReclaim(slot, Sending, v.rows[slot].token);
    assert v.reclaims + {r} - {r} == v.reclaims;
    assert v.frees + {slot} - {slot} == v.frees;
  }

  // ---- a sweep --------------------------------------------------------------------------------

  /** A sweep that selects a row takes the row, its payload and, truncated and unlinked, the file of every attempt there was. */
  lemma ASweptSlotIsGone(v: Volume, w: nat, slot: SlotId, t: Token)
    requires w !in v.sweeps && slot in v.rows && Actionable(v.rows[slot], v.now)
    ensures var v1 := NextSweep(NextSweep(v, w, Select({slot})), w, UnlinkPayload(slot));
            var v' := NextSweep(NextSweep(v1, w, GlobParts(slot)), w, Commit);
            && v' == v.(rows := v.rows - {slot}, dest := v.dest - {slot}, discards := v'.discards, condemned := v.condemned + {slot})
            && (t in v'.discards <==> t in v.discards || (t in v.puts && v.puts[t].slot == slot))
  {
    assert v.sweeps[w := {slot}] - {w} == v.sweeps;
  }

  // ---- the settlement of a send ---------------------------------------------------------------

  /** These rows have become what `to` says, and no other row has changed. */
  ghost predicate Became(t: Table, t': Table, ids: seq<SlotId>, to: Row -> Row) {
    && t'.Keys == t.Keys
    && forall id :: id in t ==> t'[id] == if id in ids then to(t[id]) else t[id]
  }

  function Ended(outcome: Outcome): Row -> Row {
    (row: Row) => row.(state := SettledState(outcome), lease := None, token := None)
  }

  /** The slots of a send that its settlement has yet to go through. */
  function Rest(x: Send): seq<SlotId>
    requires x.settled <= |x.tokens| <= |x.slots|
  {
    x.slots[x.settled..|x.tokens|]
  }

  /** Every slot not settled yet is, and its payload is to be freed unless it may be sent again; the send is over. */
  ghost predicate SettledAll(s: State, s': State, a: nat)
    requires a in s.sends && s.sends[a].settled <= |s.sends[a].tokens| <= |s.sends[a].slots|
  {
    var x := s.sends[a];
    && s' == State(s.vol.(rows := s'.vol.rows, frees := s'.vol.frees), s.sends[a := x.(settled := |x.tokens|, phase := SendEnded)])
    && Became(s.vol.rows, s'.vol.rows, Rest(x), Ended(x.outcome))
    && forall id :: id in s'.vol.frees <==> id in s.vol.frees || (id in Rest(x) && x.outcome != Failed)
  }

  /** The settlement of a send whose slots are all still with it, left alone until it ends. */
  ghost predicate MaySettle(s: State, a: nat) {
    && SendIn(s, a, Settling) && s.sends[a].settled <= |s.sends[a].tokens| <= |s.sends[a].slots|
    && NoRepeats(Rest(s.sends[a])) && forall id :: id in Rest(s.sends[a]) ==> Matches(s.vol.rows, id, Sending, None)
  }

  function Settlings(s: State, a: nat, n: nat): State
    decreases n
  {
    if n == 0 then s else Settlings(SettlingNext(s, a), a, n - 1)
  }

  lemma OneSettling(s: State, a: nat) returns (s1: State)
    requires MaySettle(s, a) && s.sends[a].settled < |s.sends[a].tokens|
    ensures s1 == SettlingNext(s, a) && MaySettle(s1, a)
    ensures var x, slot := s.sends[a], s.sends[a].slots[s.sends[a].settled];
            && Rest(x) == [slot] + Rest(s1.sends[a])
            && s1 == State(SettledSlot(s.vol, slot, x.outcome), s.sends[a := x.(settled := x.settled + 1)])
            && slot in s.vol.rows
            && s1.vol == s.vol.(rows := s.vol.rows[slot := Ended(x.outcome)(s.vol.rows[slot])],
                                frees := if x.outcome != Failed then s.vol.frees + {slot} else s.vol.frees)
  {
    var x := s.sends[a];
    s1 := SettlingNext(s, a);
    var slot := Rest(x)[0];
    assert Rest(x) == [slot] + Rest(s1.sends[a]);
    assert forall id :: id in Rest(s1.sends[a]) ==> id in Rest(x) && id != slot;
  }

  lemma SettledOneMore(s: State, s1: State, s': State, a: nat, slot: SlotId)
    requires a in s.sends && s.sends[a].settled < |s.sends[a].tokens| <= |s.sends[a].slots|
    requires NoRepeats(Rest(s.sends[a])) && slot in s.vol.rows
    requires s1.sends == s.sends[a := s.sends[a].(settled := s.sends[a].settled + 1)]
    requires Rest(s.sends[a]) == [slot] + Rest(s1.sends[a])
    requires s1.vol == s.vol.(rows := s.vol.rows[slot := Ended(s.sends[a].outcome)(s.vol.rows[slot])],
                              frees := if s.sends[a].outcome != Failed then s.vol.frees + {slot} else s.vol.frees)
    requires SettledAll(s1, s', a)
    ensures SettledAll(s, s', a)
  {
    assert slot == Rest(s.sends[a])[0];
    forall id | id in Rest(s1.sends[a]) ensures id != slot {
      var i :| 0 <= i < |Rest(s1.sends[a])| && Rest(s1.sends[a])[i] == id;
      assert Rest(s.sends[a])[i + 1] == id;
    }
  }

  /** Left alone, a settlement settles every slot by the outcome and ends. */
  lemma {:induction false} SettlementEnds(s: State, a: nat)
    requires MaySettle(s, a)
    ensures SettledAll(s, Settlings(s, a, |s.sends[a].tokens| - s.sends[a].settled + 1), a)
    decreases |s.sends[a].tokens| - s.sends[a].settled
  {
    var n := |s.sends[a].tokens| - s.sends[a].settled;
    if n == 0 {
      assert Rest(s.sends[a]) == [];
      assert Settlings(s, a, 1) == Settlings(SettlingNext(s, a), a, 0);
    } else {
      var s1 := OneSettling(s, a);
      SettlementEnds(s1, a);
      SettledOneMore(s, s1, Settlings(s1, a, n), a, Rest(s.sends[a])[0]);
    }
  }

  /** What the transport's answer, or its absence, makes of a slot; a draft is filed, not delivered. */
  function Verdict(kind: SendKind, answer: Option<Report>): SlotState {
    if answer.None? then if kind == Mail then SendUnknown else Stored
    else if answer.value.success then Consumed
    else if kind == Mail && answer.value.delivery.Some? && answer.value.delivery.value != "failed" then SendUnknown
    else Stored
  }

  function Concluded(state: SlotState): Row -> Row {
    (row: Row) => row.(state := state, lease := None, token := None)
  }

  /** The send has loaded every payload and holds every slot. */
  ghost predicate ReadyToHand(s: State, a: nat) {
    && SendIn(s, a, Loading) && s.sends[a].settled == 0
    && |s.sends[a].tokens| == |s.sends[a].payloads| == |s.sends[a].slots| && NoRepeats(s.sends[a].slots)
    && forall id :: id in s.sends[a].slots ==> Matches(s.vol.rows, id, Sending, None)
  }

  /** The message was handed over and this is what came of it; the slots are as they were. */
  predicate HasAnswered(s: State, s1: State, a: nat, answer: Option<Report>)
    requires a in s.sends
  {
    && a in s1.sends && s1.vol == s.vol && (answer.Some? ==> s1.sends[a].verdict == answer)
    && SettledState(s1.sends[a].outcome) == Verdict(s.sends[a].kind, answer)
    && s1.sends[a] == s.sends[a].(phase := Settling, handed := true, verdict := s1.sends[a].verdict, outcome := s1.sends[a].outcome)
  }

  function HandedOver(s: State, a: nat, answer: Option<Report>): State {
    NextSend(NextSend(s, a, Hand), a, if answer.Some? then Answer(answer.value) else LoseAnswer)
  }

  lemma HandedAndAnswered(s: State, a: nat, answer: Option<Report>)
    requires ReadyToHand(s, a)
    ensures HasAnswered(s, HandedOver(s, a, answer), a, answer)
  {
  }

  lemma AnsweredMaySettle(s: State, s1: State, a: nat, answer: Option<Report>)
    requires ReadyToHand(s, a) && HasAnswered(s, s1, a, answer)
    ensures MaySettle(s1, a) && s1.sends[a].settled == 0 && Rest(s1.sends[a]) == s.sends[a].slots
    ensures |s1.sends[a].tokens| == |s.sends[a].slots|
  {
    assert Rest(s1.sends[a]) == s.sends[a].slots;
  }

  /** Every slot of the send is as the answer demands, its payload freed unless it is stored, and nothing else has changed. */
  ghost predicate ConcludedBy(s: State, s': State, a: nat, answer: Option<Report>)
    requires a in s.sends
  {
    var x := s.sends[a];
    && SendIn(s', a, SendEnded) && s'.sends[a].handed
    && s'.vol == s.vol.(rows := s'.vol.rows, frees := s'.vol.frees)
    && Became(s.vol.rows, s'.vol.rows, x.slots, Concluded(Verdict(x.kind, answer)))
    && forall id :: id in s'.vol.frees <==> id in s.vol.frees || (id in x.slots && Verdict(x.kind, answer) != Stored)
  }

  lemma SettledIsConcluded(s: State, s1: State, s': State, a: nat, answer: Option<Report>)
    requires a in s.sends && HasAnswered(s, s1, a, answer) && MaySettle(s1, a) && SettledAll(s1, s', a)
    requires Rest(s1.sends[a]) == s.sends[a].slots
    ensures ConcludedBy(s, s', a, answer)
  {
  }

  /** A send that holds its slots, hands its message over and settles leaves each slot as the answer, or the lack of one, demands. */
  lemma SettledAsAnswered(s: State, a: nat, answer: Option<Report>)
    requires ReadyToHand(s, a)
    ensures ConcludedBy(s, Settlings(HandedOver(s, a, answer), a, |s.sends[a].slots| + 1), a, answer)
  {
    var s1 := HandedOver(s, a, answer);
    HandedAndAnswered(s, a, answer);
    AnsweredMaySettle(s, s1, a, answer);
    SettlementEnds(s1, a);
    SettledIsConcluded(s, s1, Settlings(s1, a, |s.sends[a].slots| + 1), a, answer);
  }

  // ---- all slots or none ----------------------------------------------------------------------

  function Claimings(s: State, a: nat, n: nat): State
    decreases n
  {
    if n == 0 then s else Claimings(ClaimingNext(s, a), a, n - 1)
  }

  /** A row a send can take. */
  predicate Takeable(t: Table, id: SlotId) { id in t && t[id].state == Stored && t[id].path && Unleased(t[id]) }

  /** Lent to a send, the row is otherwise as it was. */
  predicate Lent(row: Row, row': Row) {
    row'.state == Sending && row'.(state := Stored, lease := None, token := None) == row
  }

  /** The send has claimed these slots on top of those it had, and nothing else has changed. */
  ghost predicate HasTaken(s: State, s': State, a: nat, ids: seq<SlotId>)
    requires a in s.sends
  {
    && a in s'.sends && s'.vol == s.vol.(rows := s'.vol.rows, nextToken := s.vol.nextToken + |ids|)
    && s' == s.(vol := s'.vol, sends := s.sends[a := s.sends[a].(tokens := s'.sends[a].tokens)])
    && |s'.sends[a].tokens| == |s.sends[a].tokens| + |ids|
    && s'.vol.rows.Keys == s.vol.rows.Keys
    && forall id :: id in s.vol.rows ==> if id in ids then Lent(s.vol.rows[id], s'.vol.rows[id]) else s'.vol.rows[id] == s.vol.rows[id]
  }

  lemma TakesOne(s: State, a: nat, id: SlotId)
    requires SendIn(s, a, Claiming) && |s.sends[a].tokens| < |s.sends[a].slots| && s.sends[a].slots[|s.sends[a].tokens|] == id
    requires Takeable(s.vol.rows, id)
    ensures HasTaken(s, ClaimingNext(s, a), a, [id])
  {
  }

  lemma RestIsOther(ids: seq<SlotId>)
    requires ids != [] && NoRepeats(ids)
    ensures NoRepeats(ids[1..]) && forall id :: id in ids[1..] ==> id != ids[0] && id in ids
    ensures forall id :: id in ids <==> id == ids[0] || id in ids[1..]
  {
    assert ids == [ids[0]] + ids[1..];
    forall id | id in ids[1..] ensures id != ids[0] {
      var i :| 0 <= i < |ids[1..]| && ids[1..][i] == id;
      assert ids[i + 1] == id;
    }
  }

  lemma TakesOneMore(s: State, s1: State, s': State, a: nat, ids: seq<SlotId>)
    requires ids != [] && NoRepeats(ids) && a in s.sends && a in s1.sends
    requires HasTaken(s, s1, a, [ids[0]]) && HasTaken(s1, s', a, ids[1..])
    ensures HasTaken(s, s', a, ids)
  {
    RestIsOther(ids);
  }

  /** These are the slots the send claims next. */
  ghost predicate Ahead(s: State, a: nat, ids: seq<SlotId>) {
    && SendIn(s, a, Claiming) && |s.sends[a].tokens| + |ids| <= |s.sends[a].slots|
    && ids == s.sends[a].slots[|s.sends[a].tokens|..|s.sends[a].tokens| + |ids|]
    && NoRepeats(ids) && forall id :: id in ids ==> Takeable(s.vol.rows, id)
  }

  lemma StillAhead(s: State, s1: State, a: nat, ids: seq<SlotId>)
    requires Ahead(s, a, ids) && ids != [] && HasTaken(s, s1, a, [ids[0]])
    ensures Ahead(s1, a, ids[1..])
  {
    RestIsOther(ids);
    var k := |s.sends[a].tokens|;
    assert s.sends[a].slots[k..k + |ids|][1..] == s.sends[a].slots[k + 1..k + |ids|];
  }

  lemma FirstTaken(s: State, a: nat, ids: seq<SlotId>) returns (s1: State)
    requires Ahead(s, a, ids) && ids != []
    ensures s1 == ClaimingNext(s, a) && a in s1.sends && HasTaken(s, s1, a, [ids[0]]) && Ahead(s1, a, ids[1..])
  {
    s1 := ClaimingNext(s, a);
    assert ids[0] in ids;
    TakesOne(s, a, ids[0]);
    StillAhead(s, s1, a, ids);
  }

  lemma {:induction false} TakesAll(s: State, a: nat, ids: seq<SlotId>)
    requires Ahead(s, a, ids)
    ensures HasTaken(s, Claimings(s, a, |ids|), a, ids)
    decreases |ids|
  {
    if ids != [] {
      var s1 := FirstTaken(s, a, ids);
      TakesAll(s1, a, ids[1..]);
      TakesOneMore(s, s1, Claimings(s1, a, |ids| - 1), a, ids);
    }
  }

  lemma {:induction false} LastClaiming(s: State, a: nat, n: nat)
    ensures Claimings(s, a, n + 1) == ClaimingNext(Claimings(s, a, n), a)
    decreases n
  {
    if n > 0 {
      LastClaiming(ClaimingNext(s, a), a, n - 1);
    } else {
      assert Claimings(s, a, 1) == Claimings(ClaimingNext(s, a), a, 0);
    }
  }

  /** A send that has just started, and can take these slots first. */
  ghost predicate Starts(s: State, a: nat, ids: seq<SlotId>) {
    && Ahead(s, a, ids) && s.sends[a].tokens == [] && s.sends[a].settled == 0 && s.sends[a].outcome == Failed
    && NoRepeats(s.sends[a].slots)
  }

  /** A send all of whose slots can be taken takes them, and nothing else, and goes on to load them. */
  lemma AllSlotsAreTaken(s: State, a: nat)
    requires a in s.sends && Starts(s, a, s.sends[a].slots)
    ensures var s1, s' := Claimings(s, a, |s.sends[a].slots|), Claimings(s, a, |s.sends[a].slots| + 1);
            && HasTaken(s, s1, a, s.sends[a].slots) && s' == s1.(sends := s1.sends[a := s1.sends[a].(phase := Loading)])
  {
    TakesAll(s, a, s.sends[a].slots);
    LastClaiming(s, a, |s.sends[a].slots|);
  }

  lemma StopsAt(s: State, s1: State, a: nat, ids: seq<SlotId>)
    requires Starts(s, a, ids) && |ids| < |s.sends[a].slots| && HasTaken(s, s1, a, ids)
    requires !Matches(s.vol.rows, s.sends[a].slots[|ids|], Stored, None) || !s.vol.rows[s.sends[a].slots[|ids|]].path
    ensures var s2 := ClaimingNext(s1, a);
            && s2.vol == s1.vol && s2 == s1.(sends := s1.sends[a := s1.sends[a].(phase := Settling)])
            && MaySettle(s2, a) && Rest(s2.sends[a]) == ids
  {
    var slot := s.sends[a].slots[|ids|];
    assert slot !in ids;
    assert Rest(s1.sends[a]) == ids;
  }

  /** Nobody has gained or lost a slot; the send is over without having handed anything over. */
  ghost predicate CameToNothing(s: State, s': State, a: nat)
    requires a in s.sends
  {
    && s'.vol.rows == s.vol.rows && s'.vol == s.vol.(nextToken := s'.vol.nextToken, frees := s'.vol.frees)
    && (forall id :: id in s'.vol.frees <==> id in s.vol.frees)
    && SendIn(s', a, SendEnded) && s'.sends[a].handed == s.sends[a].handed
  }

  lemma GivenBack(t: Table, t1: Table, t': Table, ids: seq<SlotId>)
    requires t1.Keys == t.Keys && forall id :: id in t ==> if id in ids then Lent(t[id], t1[id]) else t1[id] == t[id]
    requires Became(t1, t', ids, Ended(Failed))
    ensures t' == t
  {
  }

  lemma AllGivenBack(s: State, s1: State, s2: State, s': State, a: nat, ids: seq<SlotId>)
    requires Starts(s, a, ids) && HasTaken(s, s1, a, ids)
    requires s2 == s1.(sends := s1.sends[a := s1.sends[a].(phase := Settling)])
    requires MaySettle(s2, a) && Rest(s2.sends[a]) == ids && SettledAll(s2, s', a)
    ensures CameToNothing(s, s', a)
  {
    GivenBack(s.vol.rows, s1.vol.rows, s'.vol.rows, ids);
  }

  /** A send one of whose slots cannot be taken gives the others back: the table is exactly as it found it. */
  lemma OneSlotShortTakesNone(s: State, a: nat, ids: seq<SlotId>)
    requires Starts(s, a, ids) && |ids| < |s.sends[a].slots|
    requires !Matches(s.vol.rows, s.sends[a].slots[|ids|], Stored, None) || !s.vol.rows[s.sends[a].slots[|ids|]].path
    ensures CameToNothing(s, Settlings(Claimings(s, a, |ids| + 1), a, |ids| + 1), a)
  {
    var s1, s2 := Claimings(s, a, |ids|), Claimings(s, a, |ids| + 1);
    TakesAll(s, a, ids);
    LastClaiming(s, a, |ids|);
    StopsAt(s, s1, a, ids);
    SettlementEnds(s2, a);
    AllGivenBack(s, s1, s2, Settlings(s2, a, |ids| + 1), a, ids);
  }

  // ---- sends that stop before or after the transport ------------------------------------------

  /** The send holds all its slots and nothing has been handed over. */
  ghost predicate HoldsUnsent(s: State, a: nat) {
    && SendIn(s, a, Loading) && s.sends[a].settled == 0 && s.sends[a].outcome == Failed && NoRepeats(s.sends[a].slots)
    && |s.sends[a].tokens| == |s.sends[a].slots|
    && forall id :: id in s.sends[a].slots ==> Matches(s.vol.rows, id, Sending, None)
  }

  /** A send refused while it loads its payloads, or with a payload that does not load, gives every slot back. */
  lemma ARefusedSendGivesBack(s: State, a: nat, step: SendStep)
    requires HoldsUnsent(s, a) && (step.Refuse? || (step.LoadNext? && |s.sends[a].payloads| < |s.sends[a].slots| && NextPayload(s, s.sends[a]).None?))
    ensures var s' := Settlings(NextSend(s, a, step), a, |s.sends[a].slots| + 1);
            && SendIn(s', a, SendEnded) && s'.sends[a].handed == s.sends[a].handed
            && Became(s.vol.rows, s'.vol.rows, s.sends[a].slots, Concluded(Stored))
            && s'.vol == s.vol.(rows := s'.vol.rows, frees := s'.vol.frees) && forall id :: id in s'.vol.frees <==> id in s.vol.frees
  {
    var s1 := NextSend(s, a, step);
    assert s1 == s.(sends := s.sends[a := s.sends[a].(phase := Settling)]);
    assert Rest(s1.sends[a]) == s.sends[a].slots;
    SettlementEnds(s1, a);
  }

  /** What a send can do where it stands. */
  predicate InPlace(x: Send, step: SendStep) {
    match step
    case ClaimNext => x.phase == Claiming
    case Refuse => x.phase == Claiming || x.phase == Loading
    case LoadNext => x.phase == Loading && |x.payloads| < |x.slots|
    case Hand => x.phase == Loading && |x.payloads| == |x.slots|
    case Answer(_) => x.phase == Handed
    case LoseAnswer => x.phase == Handed
    case SettleNext => x.phase == Settling
    case SettleBreaks => x.phase == Settling
    case SettleAgain => x.phase == SendEnded && x.kind == Draft && x.outcome == Sent
    case CrashSend => true
  }

  /** The phases follow each other only so. */
  predicate Follows(x: Send, step: SendStep, phase: SendPhase) {
    match step
    case ClaimNext => phase in {Claiming, Loading, Settling}
    case LoadNext => phase in {Loading, Settling}
    case Hand => phase == Handed
    case Refuse => phase == Settling
    case Answer(_) => phase == Settling
    case LoseAnswer => phase == Settling
    case SettleAgain => phase == Settling
    case SettleNext => phase in {Settling, SendEnded}
    case SettleBreaks => phase == SendEnded
    case CrashSend => phase == SendEnded
  }

  lemma AStepOutOfPlaceIsNothing(s: State, a: nat, step: SendStep)
    requires a in s.sends
    ensures !InPlace(s.sends[a], step) ==> NextSend(s, a, step) == s
    ensures InPlace(s.sends[a], step) ==>
              var s' := NextSend(s, a, step);
              && a in s'.sends && Follows(s.sends[a], step, s'.sends[a].phase)
              && (step.SettleAgain? ==> s'.sends[a].outcome == Failed && s'.sends[a].settled == 0)
              && (s'.sends[a].handed <==> s.sends[a].handed || step.Hand?)
  {
  }

  lemma {:induction false} NothingToSettle(s: State, a: nat)
    requires SendIn(s, a, Settling) && s.sends[a].settled <= |s.sends[a].tokens| <= |s.sends[a].slots|
    requires forall id :: id in Rest(s.sends[a]) ==> !Matches(s.vol.rows, id, Sending, None)
    ensures var s' := Settlings(s, a, |s.sends[a].tokens| - s.sends[a].settled + 1); s'.vol == s.vol && SendIn(s', a, SendEnded)
    decreases |s.sends[a].tokens| - s.sends[a].settled
  {
    var n := |s.sends[a].tokens| - s.sends[a].settled;
    var s1 := SettlingNext(s, a);
    if n == 0 {
      assert Settlings(s, a, 1) == Settlings(s1, a, 0);
    } else {
      assert Rest(s.sends[a]) == [s.sends[a].slots[s.sends[a].settled]] + Rest(s1.sends[a]);
      NothingToSettle(s1, a);
    }
  }

  /** A draft settled again, as failed, after it had been filed: its slots are spent already and stay so. */
  lemma ADraftIsFiledOnce(s: State, a: nat)
    requires SendIn(s, a, SendEnded) && s.sends[a].kind == Draft && s.sends[a].outcome == Sent && |s.sends[a].tokens| == |s.sends[a].slots|
    requires forall id :: id in s.sends[a].slots ==> id in s.vol.rows && s.vol.rows[id].state == Consumed
    ensures var s' := Settlings(NextSend(s, a, SettleAgain), a, |s.sends[a].slots| + 1); s'.vol == s.vol && SendIn(s', a, SendEnded)
  {
    var s1 := NextSend(s, a, SettleAgain);
    assert Rest(s1.sends[a]) == s.sends[a].slots;
    NothingToSettle(s1, a);
  }

  /** Nothing is handed over in part. */
  ghost predicate HandedWhole(s: State) {
    forall a :: a in s.sends && s.sends[a].handed ==> |s.sends[a].payloads| == |s.sends[a].slots|
  }

  lemma SendKeepsWhole(s: State, a: nat, step: SendStep)
    requires a in s.sends && (s.sends[a].handed ==> |s.sends[a].payloads| == |s.sends[a].slots|)
    ensures var s' := NextSend(s, a, step);
            && a in s'.sends && s'.sends == s.sends[a := s'.sends[a]]
            && (s'.sends[a].handed ==> |s'.sends[a].payloads| == |s'.sends[a].slots|)
  {
  }

  lemma StepKeepsWhole(s: State, step: Step)
    requires HandedWhole(s)
    ensures HandedWhole(Next(s, step))
  {
    if step.OfSend? && step.send in s.sends { SendKeepsWhole(s, step.send, step.sendStep); }
  }

  lemma {:induction false} RunKeepsWhole(s: State, steps: seq<Step>)
    requires HandedWhole(s)
    ensures HandedWhole(Run(s, steps))
    decreases |steps|
  {
    if steps != [] {
      StepKeepsWhole(s, steps[0]);
      RunKeepsWhole(Next(s, steps[0]), steps[1..]);
    }
  }

  /** A crash stops its actor where it stands: no row, no file and no other actor feels it. */
  lemma CrashesStopOnlyThemselves(v: Volume, t: Token, r: PendingReclaim, w: nat)
    requires t in v.puts
    ensures NextPut(v, t, CrashPut) == v.(puts := v.puts[t := v.puts[t].(phase := PutEnded)])
    ensures NextHouse(v, ReclaimCrash(r)) == v.(reclaims := v.reclaims - {r})
    ensures NextSweep(v, w, CrashSweep) == v.(sweeps := v.sweeps - {w})
  {
  }
}
