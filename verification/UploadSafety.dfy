/**
 Single use of a slot, in every run of UploadProtocol.

 The invariant: a send "holds" a slot from its claim until a 'failed' settlement has been through it,
 even after it crashed. While somebody holds a slot its row is that send's own claim, terminal, or
 gone; and no two sends hold the same slot. Settlements are not fenced on the holder token, so this
 is exactly what makes them harmless.
 */
module UploadSafety {
  import opened Common
  import opened UploadRows
  import opened UploadProtocol

  /** Send `x` claimed its i-th slot and has not been through a 'failed' settlement of it. */
  predicate Holds(x: Send, i: nat) {
    i < |x.tokens| && i < |x.slots| && !(x.outcome == Failed && i < x.settled)
  }

  /** Where a held slot can be: the holder's own claim, spent, retired or gone. */
  predicate HeldRow(rows: Table, slot: SlotId, token: Token) {
    slot in rows ==>
      Terminal(rows[slot].state) || (rows[slot].state == Sending && rows[slot].token == Some(token))
  }

  /** The transport has reported, and what it reported is a definite failure: not merely that nothing was reported yet. */
  predicate ReportedFailed(x: Send) {
    x.verdict.Some? && DeliveryOutcome(x.verdict.value) == Failed
  }

  predicate SendShape(x: Send, nextSlot: SlotId) {
    && |x.tokens| <= |x.slots| && |x.payloads| <= |x.slots|
    && NoRepeats(x.slots)
    && (forall i: nat :: i < |x.tokens| ==> x.slots[i] < nextSlot)
    && (x.phase == Loading || x.handed ==> |x.tokens| == |x.slots|)
    && (x.phase in {Claiming, Loading, Handed} ==> x.settled == 0)
    && (x.handed ==> x.phase in {Handed, Settling, SendEnded})
    && (x.phase == Handed && x.kind == Mail ==> x.outcome == Unknown)
    && (x.kind == Mail && x.handed && x.outcome == Failed ==> ReportedFailed(x))
  }

  ghost predicate HeldInv(rows: Table, sends: map<nat, Send>) {
    forall a, i: nat :: a in sends && Holds(sends[a], i) ==> HeldRow(rows, sends[a].slots[i], sends[a].tokens[i])
  }

  ghost predicate ApartInv(sends: map<nat, Send>) {
    forall a, i: nat, b, j: nat {:trigger Holds(sends[a], i), Holds(sends[b], j)} ::
      a in sends && b in sends && a != b && Holds(sends[a], i) && Holds(sends[b], j) ==>
        sends[a].slots[i] != sends[b].slots[j]
  }

  ghost predicate ClaimInv(s: State) {
    && (forall id :: id in s.vol.rows ==> id < s.vol.nextSlot)
    && (forall a :: a in s.sends ==> SendShape(s.sends[a], s.vol.nextSlot))
    && HeldInv(s.vol.rows, s.sends)
    && ApartInv(s.sends)
  }

  // ---- steps that are no send's -------------------------------------------------------------

  /** A change of one row that no holder has to fear. */
  predicate GentleRow(r: Row, r': Row) {
    && (Terminal(r.state) ==> Terminal(r'.state))
    && (r.state == Sending ==> Terminal(r'.state) || (r'.state == Sending && r'.token == r.token))
  }

  ghost predicate Gentle(rows: Table, rows': Table) {
    forall id :: id in rows' && id in rows ==> GentleRow(rows[id], rows'[id])
  }

  /** What a step of nobody's send does to the rows: existing ones gently, and only new ids appear. */
  ghost predicate Bystander(v: Volume, v': Volume) {
    && Gentle(v.rows, v'.rows) && v.nextSlot <= v'.nextSlot
    && (forall id :: id in v'.rows && id !in v.rows ==> v.nextSlot <= id < v'.nextSlot)
  }

  lemma BystandersKeepClaims(s: State, v': Volume)
    requires ClaimInv(s) && Bystander(s.vol, v')
    ensures ClaimInv(s.(vol := v'))
  {
    forall a, i: nat | a in s.sends && Holds(s.sends[a], i)
      ensures HeldRow(v'.rows, s.sends[a].slots[i], s.sends[a].tokens[i])
    {
      assert HeldRow(s.vol.rows, s.sends[a].slots[i], s.sends[a].tokens[i]);
      assert SendShape(s.sends[a], s.vol.nextSlot);
    }
    forall a | a in s.sends ensures SendShape(s.sends[a], v'.nextSlot) {
      assert SendShape(s.sends[a], s.vol.nextSlot);
    }
  }

  lemma UpdateIsGentle(t: Table, id: SlotId, row: Row)
    requires id in t && GentleRow(t[id], row)
    ensures Gentle(t, t[id := row]) && t[id := row].Keys == t.Keys
  {
  }

  predicate QuietPut(step: PutStep) {
    step.Open? || step.Write? || step.GiveUp? || step.ReplaceFile? || step.UnlinkOwn? || step.CrashPut?
  }

  lemma QuietPutsKeepRows(v: Volume, t: Token, step: PutStep)
    requires QuietPut(step)
    ensures NextPut(v, t, step).rows == v.rows && NextPut(v, t, step).nextSlot == v.nextSlot
  {
  }

  lemma RenewIsGentle(v: Volume, t: Token)
    ensures Bystander(v, Renewed(v, t))
  {
    if PutIn(v, t, Streaming) && Matches(v.rows, v.puts[t].slot, Receiving, Some(t)) {
      UpdateIsGentle(v.rows, v.puts[t].slot, Renewed(v, t).rows[v.puts[t].slot]);
    }
  }

  lemma PromoteIsGentle(v: Volume, t: Token)
    ensures Bystander(v, Promoting(v, t))
  {
    if PutIn(v, t, Streaming) && Matches(v.rows, v.puts[t].slot, Receiving, Some(t)) {
      UpdateIsGentle(v.rows, v.puts[t].slot, Promoting(v, t).rows[v.puts[t].slot]);
    }
  }

  lemma RollbackIsGentle(v: Volume, t: Token)
    ensures Bystander(v, RolledBack(v, t))
  {
    if PutIn(v, t, RollingBack) && Matches(v.rows, v.puts[t].slot, Stored, None) {
      UpdateIsGentle(v.rows, v.puts[t].slot, RolledBack(v, t).rows[v.puts[t].slot]);
    }
  }

  lemma HandBackIsGentle(v: Volume, t: Token)
    ensures Bystander(v, HandedBack(v, t))
  {
    if PutIn(v, t, HandingBack) && Matches(v.rows, v.puts[t].slot, Receiving, Some(t)) {
      UpdateIsGentle(v.rows, v.puts[t].slot, HandedBack(v, t).rows[v.puts[t].slot]);
    }
  }

  lemma PutsAreGentle(v: Volume, t: Token, step: PutStep)
    ensures Bystander(v, NextPut(v, t, step))
  {
    if QuietPut(step) {
      QuietPutsKeepRows(v, t, step);
    } else {
      match step {
        case RenewLease => RenewIsGentle(v, t);
        case PromoteRow => PromoteIsGentle(v, t);
        case Rollback => RollbackIsGentle(v, t);
        case HandBackRow => HandBackIsGentle(v, t);
      }
    }
  }

  lemma ReclaimIsGentle(v: Volume, r: PendingReclaim)
    ensures Bystander(v, Reclaimed(v, r))
  {
    if r in v.reclaims && InFlight(r.from) && Lapsed(v.rows, r.slot, r.from, v.now) {
      UpdateIsGentle(v.rows, r.slot, ReclaimedRow(v.rows[r.slot], r.from));
    }
  }

  lemma ClearIsGentle(v: Volume, slot: SlotId)
    ensures Bystander(v, PathCleared(v, slot))
  {
    if slot in v.frees && slot in v.rows {
      UpdateIsGentle(v.rows, slot, v.rows[slot].(path := false));
    }
  }

  lemma QuietHouseKeepsRows(v: Volume, step: HouseStep)
    requires !step.ReclaimUpdate? && !step.FreeClear?
    ensures NextHouse(v, step).rows == v.rows && NextHouse(v, step).nextSlot == v.nextSlot
  {
  }

  lemma HouseIsGentle(v: Volume, step: HouseStep)
    ensures Bystander(v, NextHouse(v, step))
  {
    match step {
      case ReclaimUpdate(r) => ReclaimIsGentle(v, r);
      case FreeClear(slot) => ClearIsGentle(v, slot);
      case _ => QuietHouseKeepsRows(v, step);
    }
  }

  lemma SweepsAreGentle(v: Volume, w: nat, step: SweepStep)
    ensures Bystander(v, NextSweep(v, w, step))
  {
  }

  lemma ReceiveIsGentle(v: Volume, slot: SlotId)
    ensures Bystander(v, Receive(v, slot))
  {
    if Matches(v.rows, slot, Pending, None) {
      UpdateIsGentle(v.rows, slot, Receive(v, slot).rows[slot]);
    }
  }

  // ---- steps of a send ----------------------------------------------------------------------

  /** `x'` holds no slot that `x` does not, under the same claim. */
  ghost predicate HoldsNoMore(x: Send, x': Send) {
    x'.slots == x.slots && x'.tokens == x.tokens && forall i: nat :: Holds(x', i) ==> Holds(x, i)
  }

  lemma AdvancingHoldsNoMore(x: Send, step: SendStep, loaded: Option<Bytes>, nextSlot: SlotId)
    requires SendShape(x, nextSlot) && !step.ClaimNext? && !step.SettleNext?
    ensures HoldsNoMore(x, Advanced(x, step, loaded)) && SendShape(Advanced(x, step, loaded), nextSlot)
  {
  }

  lemma FewerHolds(sends: map<nat, Send>, a: nat, x': Send)
    requires a in sends && ApartInv(sends) && HoldsNoMore(sends[a], x')
    ensures ApartInv(sends[a := x'])
  {
    var sends' := sends[a := x'];
    forall b, i: nat, c, j: nat | b in sends' && c in sends' && b != c && Holds(sends'[b], i) && Holds(sends'[c], j)
      ensures sends'[b].slots[i] != sends'[c].slots[j]
    {
      assert Holds(sends[b], i) && Holds(sends[c], j);
    }
  }

  lemma FewerHoldsKeepClaims(s: State, a: nat, x': Send)
    requires ClaimInv(s) && a in s.sends && HoldsNoMore(s.sends[a], x') && SendShape(x', s.vol.nextSlot)
    ensures ClaimInv(SetSend(s, a, x'))
  {
    FewerHolds(s.sends, a, x');
    var sends' := s.sends[a := x'];
    forall b, i: nat | b in sends' && Holds(sends'[b], i)
      ensures HeldRow(s.vol.rows, sends'[b].slots[i], sends'[b].tokens[i])
    {
      assert Holds(s.sends[b], i);
    }
  }

  lemma QuietSendsKeepClaims(s: State, a: nat, step: SendStep)
    requires ClaimInv(s) && a in s.sends && !step.ClaimNext? && !step.SettleNext?
    ensures ClaimInv(NextSend(s, a, step))
  {
    var loaded := NextPayload(s, s.sends[a]);
    AdvancingHoldsNoMore(s.sends[a], step, loaded, s.vol.nextSlot);
    FewerHoldsKeepClaims(s, a, Advanced(s.sends[a], step, loaded));
  }

  /** A 'stored' slot is held by nobody. */
  lemma StoredIsUnheld(s: State, slot: SlotId, a: nat, i: nat)
    requires ClaimInv(s) && slot in s.vol.rows && s.vol.rows[slot].state == Stored
    requires a in s.sends && Holds(s.sends[a], i)
    ensures s.sends[a].slots[i] != slot
  {
    assert HeldRow(s.vol.rows, s.sends[a].slots[i], s.sends[a].tokens[i]);
  }

  lemma ClaimKeepsHeld(s: State, a: nat)
    requires ClaimInv(s) && SendIn(s, a, Claiming) && |s.sends[a].tokens| < |s.sends[a].slots|
    requires Matches(s.vol.rows, s.sends[a].slots[|s.sends[a].tokens|], Stored, None)
    ensures var x := s.sends[a];
            var x' := x.(tokens := x.tokens + [s.vol.nextToken]);
            && HeldInv(Claim(s.vol.rows, x.slots[|x.tokens|], Stored, Sending, None, s.vol.nextToken, s.vol.now), s.sends[a := x'])
            && ApartInv(s.sends[a := x'])
  {
    var x := s.sends[a];
    var slot := x.slots[|x.tokens|];
    var x' := x.(tokens := x.tokens + [s.vol.nextToken]);
    var rows' := Claim(s.vol.rows, slot, Stored, Sending, None, s.vol.nextToken, s.vol.now);
    var sends' := s.sends[a := x'];
    forall b, i: nat | b in sends' && Holds(sends'[b], i)
      ensures HeldRow(rows', sends'[b].slots[i], sends'[b].tokens[i])
    {
      if b != a || i < |x.tokens| {
        assert Holds(s.sends[b], i);
        StoredIsUnheld(s, slot, b, i);
      }
    }
    forall b, i: nat, c, j: nat | b in sends' && c in sends' && b != c && Holds(sends'[b], i) && Holds(sends'[c], j)
      ensures sends'[b].slots[i] != sends'[c].slots[j]
    {
      var newB, newC := b == a && i == |x.tokens|, c == a && j == |x.tokens|;
      if !newB && !newC {
        assert Holds(s.sends[b], i) && Holds(s.sends[c], j);
      } else if newB {
        StoredIsUnheld(s, slot, c, j);
      } else {
        StoredIsUnheld(s, slot, b, i);
      }
    }
  }

  lemma ClaimNextKeepsClaims(s: State, a: nat)
    requires ClaimInv(s) && SendIn(s, a, Claiming)
    ensures ClaimInv(ClaimingNext(s, a))
  {
    var x := s.sends[a];
    if |x.tokens| >= |x.slots| {
      FewerHoldsKeepClaims(s, a, x.(phase := Loading));
    } else if !Matches(s.vol.rows, x.slots[|x.tokens|], Stored, None) || !s.vol.rows[x.slots[|x.tokens|]].path {
      FewerHoldsKeepClaims(s, a, x.(phase := Settling));
    } else {
      ClaimKeepsHeld(s, a);
      assert SendShape(x, s.vol.nextSlot);
    }
  }

  /** What a settlement does to the rows, given that the settling send still holds the slot. */
  lemma SettleKeepsHeld(s: State, a: nat)
    requires ClaimInv(s) && SendIn(s, a, Settling) && s.sends[a].settled < |s.sends[a].tokens|
    ensures var x := s.sends[a];
            HeldInv(Settle(s.vol.rows, x.slots[x.settled], x.outcome), s.sends[a := x.(settled := x.settled + 1)])
  {
    var x := s.sends[a];
    var slot := x.slots[x.settled];
    var sends' := s.sends[a := x.(settled := x.settled + 1)];
    assert Holds(x, x.settled);
    forall b, i: nat | b in sends' && Holds(sends'[b], i)
      ensures HeldRow(Settle(s.vol.rows, slot, x.outcome), sends'[b].slots[i], sends'[b].tokens[i])
    {
      assert Holds(s.sends[b], i) && HeldRow(s.vol.rows, s.sends[b].slots[i], s.sends[b].tokens[i]);
    }
  }

  lemma SettleShifts(s: State, a: nat)
    requires ClaimInv(s) && SendIn(s, a, Settling)
    ensures var x' := s.sends[a].(settled := s.sends[a].settled + 1);
            SendShape(x', s.vol.nextSlot) && ApartInv(s.sends[a := x'])
  {
    var x := s.sends[a];
    assert SendShape(x, s.vol.nextSlot);
    FewerHolds(s.sends, a, x.(settled := x.settled + 1));
  }

  lemma SettleNextKeepsClaims(s: State, a: nat)
    requires ClaimInv(s) && SendIn(s, a, Settling)
    ensures ClaimInv(SettlingNext(s, a))
  {
    var x := s.sends[a];
    if x.settled >= |x.tokens| {
      FewerHoldsKeepClaims(s, a, x.(phase := SendEnded));
    } else {
      SettleKeepsHeld(s, a);
      SettleShifts(s, a);
      var s' := SettlingNext(s, a);
      assert s'.vol.rows == Settle(s.vol.rows, x.slots[x.settled], x.outcome);
      assert s'.sends == s.sends[a := x.(settled := x.settled + 1)];
    }
  }

  lemma StepKeepsClaims(s: State, step: Step)
    requires ClaimInv(s)
    ensures ClaimInv(Next(s, step))
  {
    match step {
      case Tick(d) => BystandersKeepClaims(s, s.vol.(now := s.vol.now + d));
      case Begin(owner, declared, ttl) => BystandersKeepClaims(s, Begun(s.vol, owner, declared, ttl));
      case PutClaim(slot) => ReceiveIsGentle(s.vol, slot); BystandersKeepClaims(s, Receive(s.vol, slot));
      case SendStart(a, kind, slots) => StartKeepsClaims(s, a, kind, slots);
      case OfPut(t, ps) => PutsAreGentle(s.vol, t, ps); BystandersKeepClaims(s, NextPut(s.vol, t, ps));
      case OfSend(a, ss) => SendKeepsClaims(s, a, ss);
      case OfHouse(hs) => HouseIsGentle(s.vol, hs); BystandersKeepClaims(s, NextHouse(s.vol, hs));
      case OfSweep(w, ws) => SweepsAreGentle(s.vol, w, ws); BystandersKeepClaims(s, NextSweep(s.vol, w, ws));
    }
  }

  lemma StartKeepsClaims(s: State, a: nat, kind: SendKind, slots: seq<SlotId>)
    requires ClaimInv(s)
    ensures ClaimInv(Started(s, a, kind, slots))
  {
  }

  lemma SendKeepsClaims(s: State, a: nat, step: SendStep)
    requires ClaimInv(s)
    ensures ClaimInv(NextSend(s, a, step))
  {
    if a in s.sends {
      match step {
        case ClaimNext => if SendIn(s, a, Claiming) { ClaimNextKeepsClaims(s, a); }
        case SettleNext => if SendIn(s, a, Settling) { SettleNextKeepsClaims(s, a); }
        case _ => QuietSendsKeepClaims(s, a, step);
      }
    }
  }

  // ---- every run ----------------------------------------------------------------------------

  lemma {:induction false} RunKeepsClaims(s: State, steps: seq<Step>)
    requires ClaimInv(s)
    ensures ClaimInv(Run(s, steps))
    decreases |steps|
  {
    if steps != [] {
      StepKeepsClaims(s, steps[0]);
      RunKeepsClaims(Next(s, steps[0]), steps[1..]);
    }
  }

  lemma InitClaims()
    ensures ClaimInv(Init)
  {
  }

  /**
   The send has given its i-th slot back: its settlement as 'failed' went through it. A mail does so only on
   the transport's own report of failure; a draft, which is filed and not delivered, also for want of a report.
   */
  predicate GaveBack(x: Send, i: nat) {
    && x.phase in {Settling, SendEnded} && x.outcome == Failed && i < x.settled
    && (x.kind == Mail ==> ReportedFailed(x))
  }

  /**
   A slot handed over is handed over once: of two sends that both gave it to a transport, one has settled
   as failed and given the slot back; of two mails, on its transport's own word.
   */
  lemma AtMostOneDelivery(steps: seq<Step>, a: nat, b: nat, i: nat, j: nat)
    requires var s := Run(Init, steps);
             && a in s.sends && b in s.sends && a != b
             && s.sends[a].handed && s.sends[b].handed
             && i < |s.sends[a].slots| && j < |s.sends[b].slots|
             && s.sends[a].slots[i] == s.sends[b].slots[j]
    ensures var s := Run(Init, steps); GaveBack(s.sends[a], i) || GaveBack(s.sends[b], j)
  {
    InitClaims();
    RunKeepsClaims(Init, steps);
    var s := Run(Init, steps);
    assert SendShape(s.sends[a], s.vol.nextSlot) && SendShape(s.sends[b], s.vol.nextSlot);
    assert !(Holds(s.sends[a], i) && Holds(s.sends[b], j));
  }

  /** A mail that reached its transport and was reported as not delivered. */
  predicate FailedMail(x: Send) {
    x.kind == Mail && x.handed && x.outcome == Failed && x.phase in {Settling, SendEnded}
  }

  lemma FailedIsFinal(s: State, step: Step, a: nat)
    requires a in s.sends && FailedMail(s.sends[a])
    ensures a in Next(s, step).sends && FailedMail(Next(s, step).sends[a])
  {
    if step.OfSend? {
      FailedIsFinalForSends(s, step.send, step.sendStep, a);
    }
  }

  lemma FailedIsFinalForSends(s: State, b: nat, step: SendStep, a: nat)
    requires a in s.sends && FailedMail(s.sends[a])
    ensures a in NextSend(s, b, step).sends && FailedMail(NextSend(s, b, step).sends[a])
  {
    if a == b && !step.ClaimNext? && !step.SettleNext? {
      assert FailedMail(Advanced(s.sends[a], step, NextPayload(s, s.sends[a])));
    }
  }

  lemma {:induction false} FailedStaysFailed(s: State, steps: seq<Step>, a: nat)
    requires a in s.sends && FailedMail(s.sends[a])
    ensures a in Run(s, steps).sends && FailedMail(Run(s, steps).sends[a])
    decreases |steps|
  {
    if steps != [] {
      FailedIsFinal(s, steps[0], a);
      FailedStaysFailed(Next(s, steps[0]), steps[1..], a);
    }
  }

  /**
   From the moment a mail whose outcome is not 'failed' reaches its transport, none of its slots is ever
   'pending', 'receiving' or 'stored' again: `before` is any run up to such a moment, `after` any
   continuation, at whose end the outcome is still not 'failed'.
   */
  lemma NeverSpendableAgain(before: seq<Step>, after: seq<Step>, a: nat, i: nat)
    requires var s := Run(Init, before);
             a in s.sends && s.sends[a].kind == Mail && s.sends[a].handed && i < |s.sends[a].slots|
    requires var s' := Run(Run(Init, before), after); a in s'.sends && s'.sends[a].outcome != Failed
    ensures var s := Run(Init, before);
            var slot := s.sends[a].slots[i];
            slot in s.vol.rows ==> s.vol.rows[slot].state in {Sending, Consumed, SendUnknown}
  {
    InitClaims();
    RunKeepsClaims(Init, before);
    var s := Run(Init, before);
    assert SendShape(s.sends[a], s.vol.nextSlot);
    if s.sends[a].outcome == Failed {
      FailedStaysFailed(s, after, a);
    } else {
      assert Holds(s.sends[a], i);
    }
  }
}
