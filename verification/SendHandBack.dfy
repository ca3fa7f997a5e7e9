/** Who holds which upload slot in every run of SendLedger, and what an overtaken send gives back. */
module SendHandBack {
  import opened Common
  import opened UploadRows
  import opened SendLedger
  import opened SendOnce

  // ---- the holders --------------------------------------------------------------------------

  /** The i-th slot of a send is claimed and not settled yet. */
  predicate Held(x: Send, i: int) { x.settled <= i < x.claimed && i < |x.slots| }

  /** No send can claim it: it is being sent, its delivery is unknown, or it is gone. */
  predicate Taken(s: State, slot: SlotId) {
    if slot in s.slots then s.slots[slot] in {Sending, SendUnknown} else slot in s.swept
  }

  ghost predicate HoldOk(s: State, x: Send) {
    && Distinct(x.slots) && x.claimed <= |x.slots|
    && (x.phase == Begun ==> x.claimed == 0) && (x.phase == Closed ==> x.claimed <= x.settled)
    && (forall i :: Held(x, i) ==> Taken(s, x.slots[i]))
  }

  ghost predicate Apart(x: Send, y: Send) {
    forall i, j :: Held(x, i) && Held(y, j) ==> x.slots[i] != y.slots[j]
  }

  /** What unsettled sends hold is taken, and no two of them hold one slot. */
  ghost predicate HoldInv(s: State) {
    && (forall a :: a in s.sends ==> HoldOk(s, s.sends[a]))
    && (forall a, b :: a in s.sends && b in s.sends && a != b ==> Apart(s.sends[a], s.sends[b]))
  }

  /** What was taken stays taken, but for one slot. */
  ghost predicate TakenBut(s: State, s': State, slot: Option<SlotId>) {
    forall k: SlotId :: Taken(s, k) && slot != Some(k) ==> Taken(s', k)
  }

  /** One send moves on, and no other one holds the slot that is let go. */
  lemma SendMoves(s: State, s': State, a: SendId, x: Send, slot: Option<SlotId>)
    requires HoldInv(s) && s'.sends == s.sends[a := x] && TakenBut(s, s', slot)
    requires HoldOk(s', x) && forall b :: b in s.sends && b != a ==> Apart(x, s.sends[b])
    requires slot.Some? ==> forall b, i :: b in s.sends && b != a && Held(s.sends[b], i) ==> s.sends[b].slots[i] != slot.value
    ensures HoldInv(s')
  {
    forall b | b in s'.sends ensures HoldOk(s', s'.sends[b]) {
      assert b != a ==> HoldOk(s, s.sends[b]);
    }
    forall b, c | b in s'.sends && c in s'.sends && b != c ensures Apart(s'.sends[b], s'.sends[c]) {
      if b == a { assert Apart(x, s.sends[c]); } else if c == a { assert Apart(x, s.sends[b]); } else { assert Apart(s.sends[b], s.sends[c]); }
    }
  }

  /** A step by which a send holds no more than before. */
  lemma NothingNewHeld(s: State, s': State, a: SendId, x: Send)
    requires HoldInv(s) && a in s.sends && s'.sends == s.sends[a := x] && s'.slots == s.slots && s'.swept == s.swept
    requires x.slots == s.sends[a].slots && x.claimed == s.sends[a].claimed && x.settled >= s.sends[a].settled
    requires (x.phase == Begun ==> x.claimed == 0) && (x.phase == Closed ==> x.claimed <= x.settled)
    ensures HoldInv(s')
  {
    var y := s.sends[a];
    assert HoldOk(s, y);
    assert forall i :: Held(x, i) ==> Held(y, i);
    assert forall k: SlotId :: Taken(s, k) ==> Taken(s', k);
    forall b | b in s.sends && b != a ensures Apart(x, s.sends[b]) { assert Apart(y, s.sends[b]); }
    SendMoves(s, s', a, x, None);
  }

  lemma ClaimHolds(s: State, a: SendId)
    requires HoldInv(s) && At(s, a, Claiming) && s.sends[a].claimed < |s.sends[a].slots|
    ensures HoldInv(ClaimedNext(s, a))
  {
    var x, s' := s.sends[a], ClaimedNext(s, a);
    var slot := x.slots[x.claimed];
    assert HoldOk(s, x);
    if slot in s.slots && s.slots[slot] == Stored {
      var x' := x.(claimed := x.claimed + 1);
      assert forall i :: Held(x', i) ==> Held(x, i) || i == x.claimed;
      forall b | b in s.sends && b != a ensures Apart(x', s.sends[b]) {
        assert Apart(x, s.sends[b]) && HoldOk(s, s.sends[b]);
        assert !Taken(s, slot);
      }
      SendMoves(s, s', a, x', None);
    } else {
      NothingNewHeld(s, s', a, Failing(x));
    }
  }

  lemma SettleHolds(s: State, a: SendId)
    requires HoldInv(s) && At(s, a, Settling) && s.sends[a].settled < Min(s.sends[a].claimed, |s.sends[a].slots|)
    ensures HoldInv(SettledNext(s, a))
  {
    var x, s' := s.sends[a], SettledNext(s, a);
    var x', slot := x.(settled := x.settled + 1), x.slots[x.settled];
    assert HoldOk(s, x) && Held(x, x.settled);
    assert forall i :: Held(x', i) ==> Held(x, i) && x.slots[i] != slot;
    forall b | b in s.sends && b != a ensures Apart(x', s.sends[b]) { assert Apart(x, s.sends[b]); }
    forall b, i | b in s.sends && b != a && Held(s.sends[b], i) ensures s.sends[b].slots[i] != slot {
      assert Apart(x, s.sends[b]);
    }
    SendMoves(s, s', a, x', Some(slot));
  }

  lemma BeginHolds(s: State, a: SendId, x: Send)
    requires HoldInv(s) && a !in s.sends && x.claimed == x.settled == 0 && x.phase == Begun && Distinct(x.slots)
    ensures HoldInv(Put(s, a, x))
  {
    SendMoves(s, Put(s, a, x), a, x, None);
  }

  /** Every other step claims nothing, settles nothing and leaves the slots alone. */
  lemma QuietStep(s: State, a: SendId, step: SendStep)
    requires a in s.sends && SendEnabled(s, a, step) && !step.ClaimNext? && !step.SettleNext?
    ensures var s', x := SendNext(s, a, step), s.sends[a]; a in s'.sends && var x' := s'.sends[a];
            && s'.sends == s.sends[a := x'] && s'.slots == s.slots && s'.swept == s.swept
            && x'.slots == x.slots && x'.claimed == x.claimed && x'.settled == x.settled
            && (x'.phase == Begun ==> x.phase == Begun) && (x'.phase == Closed ==> x.phase == Begun)
  {
  }

  lemma EndHolds(s: State, a: SendId)
    requires HoldInv(s) && At(s, a, Settling) && s.sends[a].settled >= Min(s.sends[a].claimed, |s.sends[a].slots|)
    ensures HoldInv(Put(s, a, s.sends[a].(phase := Closed)))
  {
    assert HoldOk(s, s.sends[a]);
    NothingNewHeld(s, Put(s, a, s.sends[a].(phase := Closed)), a, s.sends[a].(phase := Closed));
  }

  lemma SendKeepsHolders(s: State, a: SendId, step: SendStep)
    requires HoldInv(s) && SendEnabled(s, a, step)
    ensures HoldInv(SendNext(s, a, step))
  {
    if a !in s.sends {
      BeginHolds(s, a, SendNext(s, a, step).sends[a]);
    } else if step.ClaimNext? {
      ClaimHolds(s, a);
    } else if step.SettleNext? {
      if s.sends[a].settled < Min(s.sends[a].claimed, |s.sends[a].slots|) { SettleHolds(s, a); } else { EndHolds(s, a); }
    } else {
      assert HoldOk(s, s.sends[a]);
      QuietStep(s, a, step);
      NothingNewHeld(s, SendNext(s, a, step), a, SendNext(s, a, step).sends[a]);
    }
  }

  lemma SlotsMove(s: State, s': State)
    requires HoldInv(s) && s'.sends == s.sends && forall k: SlotId :: Taken(s, k) ==> Taken(s', k)
    ensures HoldInv(s')
  {
    forall a | a in s'.sends ensures HoldOk(s', s'.sends[a]) { assert HoldOk(s, s.sends[a]); }
    forall a, b | a in s'.sends && b in s'.sends && a != b ensures Apart(s'.sends[a], s'.sends[b]) {
      assert Apart(s.sends[a], s.sends[b]);
    }
  }

  lemma DeletionLeavesSlots(s: State, d: nat, step: DeletionStep)
    requires DeletionEnabled(s, d, step)
    ensures var s' := DeletionNext(s, d, step); s'.sends == s.sends && s'.slots == s.slots && s'.swept == s.swept
  {
  }

  lemma WorldKeepsTaken(s: State, step: WorldStep)
    ensures WorldNext(s, step).sends == s.sends
    ensures var s' := WorldNext(s, step); forall k: SlotId :: Taken(s, k) ==> Taken(s', k)
  {
  }

  lemma StepKeepsHolders(s: State, step: Step)
    requires HoldInv(s)
    ensures HoldInv(Next(s, step))
  {
    match step {
      case OfSend(a, send) => if SendEnabled(s, a, send) { SendKeepsHolders(s, a, send); }
      case OfDeletion(d, deletion) =>
        if DeletionEnabled(s, d, deletion) {
          DeletionLeavesSlots(s, d, deletion);
          SlotsMove(s, DeletionNext(s, d, deletion));
        }
      case OfWorld(world) =>
        WorldKeepsTaken(s, world);
        SlotsMove(s, WorldNext(s, world));
    }
  }

  /** In every run, no two unsettled sends hold one slot, and what they hold nobody can claim. */
  lemma {:induction false} RunKeepsHolders(s: State, steps: seq<Step>)
    requires HoldInv(s)
    ensures HoldInv(Run(s, steps))
    decreases |steps|
  {
    if steps != [] {
      StepKeepsHolders(s, steps[0]);
      RunKeepsHolders(Next(s, steps[0]), steps[1..]);
    }
  }

  // ---- what a call carries --------------------------------------------------------------------

  predicate Writing(x: Send) { x.phase in {Inserted, Recorded, Calling} }

  /** A send writes no audit and makes no call before it has claimed every slot it names. */
  ghost predicate FullyClaimed(s: State) {
    forall a :: a in s.sends && Writing(s.sends[a]) ==> s.sends[a].claimed == |s.sends[a].slots|
  }

  lemma OnlyWritersWrite(s: State, a: SendId, step: SendStep)
    requires SendEnabled(s, a, step) && !step.Insert? && !step.Record? && !step.Transport?
    ensures !Writing(SendNext(s, a, step).sends[a])
  {
  }

  lemma WritersAreFullyClaimed(s: State, a: SendId, step: SendStep)
    requires FullyClaimed(s) && SendEnabled(s, a, step) && Writing(SendNext(s, a, step).sends[a])
    ensures var x := SendNext(s, a, step).sends[a]; x.claimed == |x.slots|
  {
    match step {
      case Insert(began) =>
        var x := InsertedAudit(s, a, began).sends[a];
        assert x.claimed == s.sends[a].claimed && x.slots == s.sends[a].slots;
      case Record => assert RecordedAudit(s, a).sends[a] == s.sends[a].(phase := Recorded);
      case Transport => assert Called(s, a).sends[a] == s.sends[a].(phase := Calling, outcome := Unknown);
      case _ => OnlyWritersWrite(s, a, step);
    }
  }

  lemma StepKeepsFullyClaimed(s: State, step: Step)
    requires FullyClaimed(s)
    ensures FullyClaimed(Next(s, step))
  {
    match step {
      case OfSend(a, send) =>
        if SendEnabled(s, a, send) {
          SendStepTouches(s, a, send);
          if Writing(SendNext(s, a, send).sends[a]) { WritersAreFullyClaimed(s, a, send); }
        }
      case OfDeletion(d, deletion) => if DeletionEnabled(s, d, deletion) { DeletionLeavesSlots(s, d, deletion); }
      case OfWorld(world) => WorldKeepsTaken(s, world);
    }
  }

  lemma {:induction false} RunKeepsFullyClaimed(s: State, steps: seq<Step>)
    requires FullyClaimed(s)
    ensures FullyClaimed(Run(s, steps))
    decreases |steps|
  {
    if steps != [] {
      StepKeepsFullyClaimed(s, steps[0]);
      RunKeepsFullyClaimed(Next(s, steps[0]), steps[1..]);
    }
  }

  /** The slot is out of every send's reach and no other send has it to settle. */
  ghost predicate Alone(s: State, a: SendId, slot: SlotId) {
    && Taken(s, slot)
    && forall b, j :: b in s.sends && b != a && Held(s.sends[b], j) ==> s.sends[b].slots[j] != slot
  }

  lemma HeldAlone(s: State, a: SendId, i: nat)
    requires HoldInv(s) && a in s.sends && Held(s.sends[a], i)
    ensures Alone(s, a, s.sends[a].slots[i])
  {
    assert HoldOk(s, s.sends[a]);
    forall b, j | b in s.sends && b != a && Held(s.sends[b], j) ensures s.sends[b].slots[j] != s.sends[a].slots[i] {
      assert Apart(s.sends[a], s.sends[b]);
    }
  }

  lemma NoneSettled(steps: seq<Step>, a: SendId)
    requires At(Run(Init, steps), a, Calling)
    ensures Run(Init, steps).sends[a].settled == 0
  {
    RunKeepsInv(Init, steps);
    assert SendOk(Run(Init, steps), a);
  }

  /** In every run, a send that is with its transport has each of its slots to itself, out of every other send's reach. */
  lemma ACallHasItsSlots(steps: seq<Step>, a: SendId, i: nat)
    requires At(Run(Init, steps), a, Calling) && i < |Run(Init, steps).sends[a].slots|
    ensures Alone(Run(Init, steps), a, Run(Init, steps).sends[a].slots[i])
  {
    RunKeepsFullyClaimed(Init, steps);
    RunKeepsHolders(Init, steps);
    NoneSettled(steps, a);
    HeldAlone(Run(Init, steps), a, i);
  }

  // ---- what a send gives back ---------------------------------------------------------------

  predicate Differs(s: State, s': State, slot: SlotId) {
    (slot in s.slots) != (slot in s'.slots) || (slot in s.slots && s.slots[slot] != s'.slots[slot])
  }

  /** The slots a send's own step turned from 'sending' to 'stored'. */
  function GivenBackBy(s: State, step: Step, a: SendId): set<SlotId> {
    if step.OfSend? && step.a == a
    then set slot | slot in s.slots && IsSending(s, slot) && slot in Next(s, step).slots && Next(s, step).slots[slot] == Stored
    else {}
  }

  /** ... and all those of a run. */
  function GivenBack(s: State, steps: seq<Step>, a: SendId): set<SlotId>
    decreases |steps|
  {
    if steps == [] then {} else GivenBackBy(s, steps[0], a) + GivenBack(Next(s, steps[0]), steps[1..], a)
  }

  /** A send's own steps do nothing else to any slot. */
  ghost predicate OnlyGivesBack(s: State, steps: seq<Step>, a: SendId)
    decreases |steps|
  {
    steps != [] ==>
      && (steps[0].OfSend? && steps[0].a == a ==>
            forall slot: SlotId :: Differs(s, Next(s, steps[0]), slot) ==> slot in GivenBackBy(s, steps[0], a))
      && OnlyGivesBack(Next(s, steps[0]), steps[1..], a)
  }

  /** The reclaimer retires the slot, or the sweep deletes it. */
  predicate Retired(steps: seq<Step>, slot: SlotId) {
    OfWorld(Lapse(slot)) in steps || OfWorld(Sweep(slot)) in steps
  }

  predicate IsSending(s: State, slot: SlotId) { slot in s.slots && s.slots[slot] == Sending }

  /** The slots still 'sending' under a send. */
  function SendingUnder(s: State, a: SendId): set<SlotId>
    requires a in s.sends
  {
    var x := s.sends[a];
    set i | 0 <= i < |x.slots| && Held(x, i) && IsSending(s, x.slots[i]) :: x.slots[i]
  }

  /** A send that never called, under settlement or past it. */
  ghost predicate GivingBack(s: State, a: SendId) {
    HoldInv(s) && a in s.sends && s.sends[a].outcome == Failed && s.sends[a].phase in {Settling, Closed, Crashed}
  }

  /** What its own steps can be now. */
  lemma OwnSteps(s: State, step: SendStep, a: SendId)
    requires a in s.sends && s.sends[a].phase in {Settling, Closed, Crashed} && SendEnabled(s, a, step)
    ensures step.SettleNext? || step.Crash?
    ensures var x, s' := s.sends[a], SendNext(s, a, step);
            if step.Crash? then s' == Put(s, a, x.(phase := Crashed))
            else s' == if x.settled < Min(x.claimed, |x.slots|) then SettledNext(s, a) else Put(s, a, x.(phase := Closed))
  {
  }

  /** What a step of another send does to it. */
  lemma OtherSteps(s: State, step: Step, a: SendId)
    requires a in s.sends && !(step.OfSend? && step.a == a)
    ensures a in Next(s, step).sends && Next(s, step).sends[a] == s.sends[a]
  {
    match step {
      case OfSend(b, send) => if SendEnabled(s, b, send) { SendStepTouches(s, b, send); }
      case OfDeletion(d, deletion) => if DeletionEnabled(s, d, deletion) { DeletionLeavesSlots(s, d, deletion); }
      case OfWorld(world) => WorldKeepsTaken(s, world);
    }
  }

  lemma GivingBackStays(s: State, step: Step, a: SendId)
    requires GivingBack(s, a)
    ensures GivingBack(Next(s, step), a)
    ensures s.sends[a].phase == Crashed ==> Next(s, step).sends[a].phase == Crashed
  {
    StepKeepsHolders(s, step);
    if step.OfSend? && step.a == a {
      if SendEnabled(s, a, step.send) { OwnSteps(s, step.send, a); }
    } else {
      OtherSteps(s, step, a);
    }
  }

  /** Its own step settles the next slot it holds, and leaves it the rest. */
  lemma OwnStep(s: State, step: SendStep, a: SendId)
    requires GivingBack(s, a) && SendEnabled(s, a, step)
    ensures OwnStepGivesBack(s, SendNext(s, a, step), step, a)
  {
    var x, s' := s.sends[a], SendNext(s, a, step);
    OwnSteps(s, step, a);
    assert HoldOk(s, x);
    if step.SettleNext? && x.settled < x.claimed {
      OwnSettlement(s, a);
    } else {
      assert s'.slots == s.slots;
      assert forall i :: Held(s'.sends[a], i) <==> Held(x, i);
      assert GivenBackBy(s, OfSend(a, step), a) == {};
    }
  }

  ghost predicate OwnStepGivesBack(s: State, s': State, step: SendStep, a: SendId)
    requires a in s.sends
  {
    && a in s'.sends && SendingUnder(s, a) == SendingUnder(s', a) + GivenBackBy(s, OfSend(a, step), a)
    && forall slot: SlotId :: Differs(s, s', slot) ==> slot in GivenBackBy(s, OfSend(a, step), a)
  }

  lemma OwnSettlement(s: State, a: SendId)
    requires a in s.sends && HoldOk(s, s.sends[a]) && s.sends[a].phase == Settling && s.sends[a].outcome == Failed
    requires s.sends[a].settled < s.sends[a].claimed
    ensures OwnStepGivesBack(s, SettledNext(s, a), SettleNext, a)
  {
    var x := s.sends[a];
    var slot := x.slots[x.settled];
    assert GivenBackBy(s, OfSend(a, SettleNext), a) == if IsSending(s, slot) then {slot} else {};
    OwnRest(s, SettledNext(s, a), a, slot);
  }

  lemma OwnRest(s: State, s': State, a: SendId, slot: SlotId)
    requires a in s.sends && HoldOk(s, s.sends[a])
    requires s.sends[a].settled < s.sends[a].claimed && slot == s.sends[a].slots[s.sends[a].settled]
    requires a in s'.sends && s'.sends[a] == s.sends[a].(settled := s.sends[a].settled + 1)
    requires s'.slots == if IsSending(s, slot) then s.slots[slot := Stored] else s.slots
    ensures SendingUnder(s, a) == SendingUnder(s', a) + (if IsSending(s, slot) then {slot} else {})
  {
    var x, x' := s.sends[a], s'.sends[a];
    assert Held(x, x.settled);
    forall k | k in SendingUnder(s, a) && k != slot ensures k in SendingUnder(s', a) {
      var i :| 0 <= i < |x.slots| && Held(x, i) && x.slots[i] == k;
      assert Held(x', i) && x'.slots[i] == k;
    }
    forall k | k in SendingUnder(s', a) ensures k in SendingUnder(s, a) {
      var i :| 0 <= i < |x'.slots| && Held(x', i) && x'.slots[i] == k;
      assert Held(x, i) && x.slots[i] == k && k != slot;
    }
  }

  /** A step of anyone else takes a slot from under it only by retiring the slot, and puts none there. */
  lemma OthersStep(s: State, step: Step, a: SendId, i: int)
    requires HoldInv(s) && a in s.sends && !(step.OfSend? && step.a == a) && Held(s.sends[a], i)
    ensures var s', slot := Next(s, step), s.sends[a].slots[i];
            && (IsSending(s', slot) ==> IsSending(s, slot))
            && (IsSending(s, slot) ==> IsSending(s', slot) || Retired([step], slot))
  {
    match step {
      case OfSend(b, send) => if SendEnabled(s, b, send) { OtherSendsStep(s, b, send, a, i); }
      case OfDeletion(d, deletion) => if DeletionEnabled(s, d, deletion) { DeletionLeavesSlots(s, d, deletion); }
      case OfWorld(world) => WorldStepOnSlot(s, world, s.sends[a].slots[i]);
    }
  }

  lemma OtherSendsStep(s: State, b: SendId, step: SendStep, a: SendId, i: int)
    requires HoldInv(s) && a in s.sends && a != b && SendEnabled(s, b, step) && Held(s.sends[a], i)
    ensures var slot := s.sends[a].slots[i]; IsSending(SendNext(s, b, step), slot) == IsSending(s, slot)
  {
    assert HoldOk(s, s.sends[a]);
    if step.ClaimNext? {
    } else if step.SettleNext? {
      assert Apart(s.sends[a], s.sends[b]);
      assert s.sends[b].settled < Min(s.sends[b].claimed, |s.sends[b].slots|) ==> Held(s.sends[b], s.sends[b].settled);
    } else if b in s.sends {
      QuietStep(s, b, step);
    }
  }

  lemma WorldStepOnSlot(s: State, step: WorldStep, slot: SlotId)
    ensures IsSending(WorldNext(s, step), slot) ==> IsSending(s, slot)
    ensures IsSending(s, slot) ==> IsSending(WorldNext(s, step), slot) || Retired([OfWorld(step)], slot)
  {
    if step.Lapse? && step.slot == slot { assert OfWorld(Lapse(slot)) in [OfWorld(step)]; }
    if step.Sweep? && step.slot == slot { assert OfWorld(Sweep(slot)) in [OfWorld(step)]; }
  }

  lemma StepGivesBack(s: State, step: Step, a: SendId)
    requires GivingBack(s, a) && a in Next(s, step).sends
    ensures GivenBackBy(s, step, a) + SendingUnder(Next(s, step), a) <= SendingUnder(s, a)
    ensures forall slot :: slot in SendingUnder(s, a) ==>
              slot in SendingUnder(Next(s, step), a) || slot in GivenBackBy(s, step, a) || Retired([step], slot)
    ensures step.OfSend? && step.a == a ==>
              forall slot: SlotId :: Differs(s, Next(s, step), slot) ==> slot in GivenBackBy(s, step, a)
  {
    if step.OfSend? && step.a == a {
      if SendEnabled(s, a, step.send) { OwnStep(s, step.send, a); } else { assert GivenBackBy(s, step, a) == {}; }
    } else {
      OtherSteps(s, step, a);
      var x, s' := s.sends[a], Next(s, step);
      forall i | Held(x, i)
        ensures IsSending(s', x.slots[i]) ==> IsSending(s, x.slots[i])
        ensures IsSending(s, x.slots[i]) ==> IsSending(s', x.slots[i]) || Retired([step], x.slots[i])
      {
        OthersStep(s, step, a, i);
      }
      assert HoldOk(s, x);
    }
  }

  lemma {:induction false} SettlementGivesBack(s: State, steps: seq<Step>, a: SendId)
    requires GivingBack(s, a) && a in Run(s, steps).sends && Run(s, steps).sends[a].phase == Closed
    ensures GivenBack(s, steps, a) <= SendingUnder(s, a) && OnlyGivesBack(s, steps, a)
    ensures forall slot :: slot in SendingUnder(s, a) ==> slot in GivenBack(s, steps, a) || Retired(steps, slot)
    decreases |steps|
  {
    if steps == [] {
      assert HoldOk(s, s.sends[a]);
      assert forall i :: !Held(s.sends[a], i);
    } else {
      var s', rest := Next(s, steps[0]), steps[1..];
      GivingBackStays(s, steps[0], a);
      StepGivesBack(s, steps[0], a);
      SettlementGivesBack(s', rest, a);
      forall slot | slot in SendingUnder(s, a) ensures slot in GivenBack(s, steps, a) || Retired(steps, slot) {
        RetiredLater(steps, slot);
      }
    }
  }

  lemma RetiredLater(steps: seq<Step>, slot: SlotId)
    requires steps != []
    ensures Retired([steps[0]], slot) || Retired(steps[1..], slot) ==> Retired(steps, slot)
  {
  }

  /**
   A send overtaken by the deletion of its account hands its slots back as 'stored': over any run in which
   its settlement ends, every slot still 'sending' under it when the settlement began is turned from
   'sending' to 'stored' by the settlement, unless the reclaimer or the sweep retired the slot first, and
   the send does nothing else to any slot.
   */
  lemma OvertakenHandsBack(before: seq<Step>, steps: seq<Step>, a: SendId)
    requires var s := Run(Init, before); Overtaken(s, a) && s.sends[a].phase == Settling
    requires var s' := Run(Run(Init, before), steps); a in s'.sends && s'.sends[a].phase == Closed
    ensures var s := Run(Init, before);
            && OnlyGivesBack(s, steps, a) && GivenBack(s, steps, a) <= SendingUnder(s, a)
            && forall slot :: slot in SendingUnder(s, a) ==> slot in GivenBack(s, steps, a) || Retired(steps, slot)
  {
    RunKeepsHolders(Init, before);
    RunKeepsInv(Init, before);
    assert SendOk(Run(Init, before), a);
    SettlementGivesBack(Run(Init, before), steps, a);
  }
}
