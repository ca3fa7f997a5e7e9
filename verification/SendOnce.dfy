/** What `send_mail` and account deletion keep over every run of SendLedger. */
module SendOnce {
  import opened Common
  import opened UploadRows
  import opened SendLedger

  // ---- the invariant ------------------------------------------------------------------------

  /** What a send's phase says about the audit, the calls and its settlement. */
  predicate SendOk(s: State, a: SendId)
    requires a in s.sends
  {
    var x := s.sends[a];
    && Distinct(x.slots) && x.settled <= x.claimed <= |x.slots|
    && (Running(x) ==> x.settled == 0)
    && (x.phase in {Begun, Claiming, Inserted, Recorded} ==> x.outcome == Failed && !HasCalled(s.calls, a))
    && (x.phase == Inserted ==> x.account in s.accounts && (x.owner, x.key) !in s.audits)
    && (x.phase in {Recorded, Calling} ==> (x.owner, x.key) in s.audits && s.audits[(x.owner, x.key)].sender == a
                                           && s.audits[(x.owner, x.key)].status == "pending")
    && (x.phase == Calling ==> x.outcome == Unknown)
    && (x.outcome != Failed ==> HasCalled(s.calls, a))
  }

  predicate HasCalled(calls: seq<Call>, a: SendId) {
    exists i :: 0 <= i < |calls| && calls[i].sender == a
  }

  /** A call belongs to the send that wrote the audit of its key. */
  predicate CallOk(s: State, c: Call) {
    (c.owner, c.key) in s.audits && s.audits[(c.owner, c.key)].sender == c.sender && c.sender in s.sends
  }

  /** An audit names the send it is of. */
  predicate AuditOk(s: State, k: (Owner, Key))
    requires k in s.audits
  {
    var a := s.audits[k].sender;
    a in s.sends && s.sends[a].owner == k.0 && s.sends[a].key == k.1
    && s.sends[a].phase !in {Begun, Claiming, Inserted}
  }

  ghost predicate OneCallEach(s: State) {
    forall i, j :: 0 <= i < j < |s.calls| ==> s.calls[i].sender != s.calls[j].sender
  }

  ghost predicate OneInsertPerKey(s: State) {
    forall a, b ::
      (a in s.sends && b in s.sends && Inserting(s.sends[a]) && Inserting(s.sends[b])
       && s.sends[a].owner == s.sends[b].owner && s.sends[a].key == s.sends[b].key)
      ==> a == b
  }

  ghost predicate CallInv(s: State) {
    && (forall a :: a in s.sends ==> SendOk(s, a))
    && (forall i :: 0 <= i < |s.calls| ==> CallOk(s, s.calls[i]))
    && (forall k :: k in s.audits ==> AuditOk(s, k))
    && OneCallEach(s) && OneInsertPerKey(s)
  }

  // ---- every step keeps it ------------------------------------------------------------------

  lemma OthersKeep(s: State, s': State, a: SendId)
    requires forall b :: b in s.sends && b != a ==> SendOk(s, b)
    requires s'.sends - {a} == s.sends - {a} && s'.calls == s.calls && s'.audits == s.audits
    requires forall b :: b in s.sends && b != a && Inserting(s.sends[b]) ==> s.sends[b].account in s'.accounts
    ensures forall b :: b in s'.sends && b != a ==> SendOk(s', b)
  {
    forall b | b in s'.sends && b != a ensures SendOk(s', b) {
      assert b in s'.sends - {a};
      assert b in s.sends - {a} && (s'.sends - {a})[b] == (s.sends - {a})[b];
      assert SendOk(s, b);
    }
  }

  /** A send that goes on, with no audit written, no call made and no insert begun. */
  lemma MoveKeeps(s: State, a: SendId, x: Send)
    requires CallInv(s) && a in s.sends && x.owner == s.sends[a].owner && x.key == s.sends[a].key
    requires x.phase !in {Begun, Inserted} && (x.phase == Claiming ==> s.sends[a].phase in {Begun, Claiming})
    requires SendOk(Put(s, a, x), a)
    ensures CallInv(Put(s, a, x))
  {
    var s' := Put(s, a, x);
    OthersKeep(s, s', a);
    forall i | 0 <= i < |s'.calls| ensures CallOk(s', s'.calls[i]) { assert CallOk(s, s.calls[i]); }
    forall k | k in s'.audits ensures AuditOk(s', k) { assert AuditOk(s, k); }
  }

  /** Clocks, slots, deletions and added accounts do not matter. */
  lemma SameCalls(s: State, s': State)
    requires CallInv(s) && s'.sends == s.sends && s'.audits == s.audits && s'.calls == s.calls
    requires forall a :: a in s.sends && Inserting(s.sends[a]) ==> s.sends[a].account in s'.accounts
    ensures CallInv(s')
  {
    forall b | b in s'.sends ensures SendOk(s', b) { assert SendOk(s, b); }
    forall i | 0 <= i < |s'.calls| ensures CallOk(s', s'.calls[i]) { assert CallOk(s, s.calls[i]); }
    forall k | k in s'.audits ensures AuditOk(s', k) { assert AuditOk(s, k); }
  }

  lemma BeginKeeps(s: State, a: SendId, x: Send)
    requires CallInv(s) && a !in s.sends && x.phase == Begun && x.outcome == Failed && Distinct(x.slots)
    requires x.settled == x.claimed == 0
    ensures CallInv(Put(s, a, x))
  {
    var s' := Put(s, a, x);
    OthersKeep(s, s', a);
    forall i | 0 <= i < |s.calls| ensures s.calls[i].sender != a { assert CallOk(s, s.calls[i]); }
    forall i | 0 <= i < |s'.calls| ensures CallOk(s', s'.calls[i]) { assert CallOk(s, s.calls[i]); }
    forall k | k in s'.audits ensures AuditOk(s', k) { assert AuditOk(s, k); }
  }

  lemma ClaimKeeps(s: State, a: SendId)
    requires CallInv(s) && At(s, a, Claiming) && s.sends[a].claimed < |s.sends[a].slots|
    ensures CallInv(ClaimedNext(s, a))
  {
    var x := s.sends[a];
    var slot := x.slots[x.claimed];
    if slot in s.slots && s.slots[slot] == Stored {
      MoreClaimed(s, a);
      var s1 := Put(s, a, x.(claimed := x.claimed + 1));
      InsertersHaveAccounts(s1);
      SameCalls(s1, s1.(slots := s.slots[slot := Sending]));
    } else {
      FailKeeps(s, a);
    }
  }

  lemma MoreClaimed(s: State, a: SendId)
    requires CallInv(s) && At(s, a, Claiming) && s.sends[a].claimed < |s.sends[a].slots|
    ensures CallInv(Put(s, a, s.sends[a].(claimed := s.sends[a].claimed + 1)))
  {
    assert SendOk(s, a);
    MoveKeeps(s, a, s.sends[a].(claimed := s.sends[a].claimed + 1));
  }

  lemma InsertersHaveAccounts(s: State)
    requires CallInv(s)
    ensures forall a :: a in s.sends && Inserting(s.sends[a]) ==> s.sends[a].account in s.accounts
  {
    forall a | a in s.sends && Inserting(s.sends[a]) ensures s.sends[a].account in s.accounts { assert SendOk(s, a); }
  }

  lemma FailKeeps(s: State, a: SendId)
    requires CallInv(s) && a in s.sends && Running(s.sends[a])
    ensures CallInv(Put(s, a, Failing(s.sends[a])))
  {
    assert SendOk(s, a);
    MoveKeeps(s, a, Failing(s.sends[a]));
  }

  lemma InsertKeeps(s: State, a: SendId, began: Time)
    requires CallInv(s) && At(s, a, Claiming) && !KeyReserved(s, s.sends[a].owner, s.sends[a].key)
    ensures CallInv(InsertedAudit(s, a, began))
  {
    var x := s.sends[a];
    if x.account in s.accounts && (x.owner, x.key) !in s.audits {
      var s' := InsertedAudit(s, a, began);
      OthersKeep(s, s', a);
      assert SendOk(s, a);
      forall i | 0 <= i < |s'.calls| ensures CallOk(s', s'.calls[i]) { assert CallOk(s, s.calls[i]); }
      forall k | k in s'.audits ensures AuditOk(s', k) { assert AuditOk(s, k); }
    } else {
      FailKeeps(s, a);
    }
  }

  lemma RecordKeeps(s: State, a: SendId)
    requires CallInv(s) && At(s, a, Inserted)
    ensures CallInv(RecordedAudit(s, a))
  {
    var s' := RecordedAudit(s, a);
    assert SendOk(s, a);
    forall b | b in s'.sends ensures SendOk(s', b) {
      assert SendOk(s, b);
      assert b != a && Inserting(s.sends[b]) ==> (s.sends[b].owner, s.sends[b].key) != (s.sends[a].owner, s.sends[a].key);
    }
    forall i | 0 <= i < |s'.calls| ensures CallOk(s', s'.calls[i]) { assert CallOk(s, s.calls[i]); }
    forall k | k in s'.audits ensures AuditOk(s', k) { assert k in s.audits ==> AuditOk(s, k); }
  }

  lemma CallKeepsSends(s: State, a: SendId)
    requires CallInv(s) && At(s, a, Recorded)
    ensures forall b :: b in s.sends ==> SendOk(Called(s, a), b)
  {
    forall b | b in s.sends ensures SendOk(Called(s, a), b) {
      assert SendOk(s, b);
      SameCallers(s.calls, Call(s.sends[a].owner, s.sends[a].key, a), b);
    }
  }

  lemma CallKeeps(s: State, a: SendId)
    requires CallInv(s) && At(s, a, Recorded)
    ensures CallInv(Called(s, a))
  {
    var s' := Called(s, a);
    assert SendOk(s, a);
    CallKeepsSends(s, a);
    forall i | 0 <= i < |s'.calls| ensures CallOk(s', s'.calls[i]) { assert i < |s.calls| ==> CallOk(s, s.calls[i]); }
    forall k | k in s'.audits ensures AuditOk(s', k) { assert AuditOk(s, k); }
  }

  lemma SameCallers(calls: seq<Call>, c: Call, b: SendId)
    ensures HasCalled(calls + [c], c.sender)
    ensures b != c.sender ==> HasCalled(calls + [c], b) == HasCalled(calls, b)
  {
    assert (calls + [c])[|calls|] == c;
    if HasCalled(calls, b) {
      var i :| 0 <= i < |calls| && calls[i].sender == b;
      assert (calls + [c])[i].sender == b;
    }
  }

  lemma ReportKeeps(s: State, a: SendId, r: Report, written: bool)
    requires CallInv(s) && At(s, a, Calling)
    ensures CallInv(Answered(s, a, r, written))
  {
    var x := s.sends[a];
    var x' := x.(phase := Settling, outcome := DeliveryOutcome(r));
    assert SendOk(s, a);
    MoveKeeps(s, a, x');
    if written {
      var k := (x.owner, x.key);
      StatusKeeps(Put(s, a, x'), k, StatusOf(r));
    }
  }

  /** The status of a finished send's audit may be anything. */
  lemma StatusKeeps(s: State, k: (Owner, Key), status: string)
    requires CallInv(s) && k in s.audits && s.audits[k].sender in s.sends
    requires s.sends[s.audits[k].sender].phase == Settling
    ensures CallInv(s.(audits := s.audits[k := s.audits[k].(status := status)]))
  {
    var s' := s.(audits := s.audits[k := s.audits[k].(status := status)]);
    forall b | b in s'.sends ensures SendOk(s', b) { assert SendOk(s, b); }
    forall i | 0 <= i < |s'.calls| ensures CallOk(s', s'.calls[i]) { assert CallOk(s, s.calls[i]); }
    forall j | j in s'.audits ensures AuditOk(s', j) { assert AuditOk(s, j); }
  }

  lemma SettleKeeps(s: State, a: SendId)
    requires CallInv(s) && At(s, a, Settling) && s.sends[a].settled < Min(s.sends[a].claimed, |s.sends[a].slots|)
    ensures CallInv(SettledNext(s, a))
  {
    var x' := s.sends[a].(settled := s.sends[a].settled + 1);
    assert SendOk(s, a);
    MoveKeeps(s, a, x');
    InsertersHaveAccounts(Put(s, a, x'));
    SameCalls(Put(s, a, x'), SettledNext(s, a));
  }

  lemma EndKeeps(s: State, a: SendId, p: Phase)
    requires CallInv(s) && a in s.sends && p in {Closed, Crashed}
    ensures CallInv(Put(s, a, s.sends[a].(phase := p)))
  {
    assert SendOk(s, a);
    MoveKeeps(s, a, s.sends[a].(phase := p));
  }

  lemma LookUpKeeps(s: State, a: SendId)
    requires CallInv(s) && At(s, a, Begun)
    ensures CallInv(SendNext(s, a, LookUp))
  {
    var x := s.sends[a];
    if Prior(s.audits, x.owner, x.key, x.hash) == GoOn {
      assert SendOk(s, a);
      MoveKeeps(s, a, x.(phase := Claiming));
    } else {
      EndKeeps(s, a, Closed);
    }
  }

  // ---- deletion -----------------------------------------------------------------------------

  /** Two deletions never hold one account, and none holds an account an uncommitted audit names. */
  ghost predicate LockInv(s: State) {
    && (forall d, e :: d in s.deletions && e in s.deletions && s.deletions[d].account == s.deletions[e].account ==> d == e)
    && (forall d, a :: d in s.deletions && a in s.sends && Inserting(s.sends[a]) ==> s.sends[a].account != s.deletions[d].account)
  }

  /** What the check established still holds when the account goes: no pending audit as young as the window. */
  ghost predicate CheckedInv(s: State) {
    forall d :: d in s.deletions && s.deletions[d].Checked? ==>
      && s.deletions[d].at <= s.now
      && !AnyInFlight(s.audits, s.deletions[d].account, s.deletions[d].at - IN_FLIGHT_SEND_WINDOW)
  }

  ghost predicate AccountInv(s: State) {
    && (forall id :: id in s.accounts ==> id < s.nextAccount)
    && (forall k :: k in s.audits && s.audits[k].account.Some? ==> s.audits[k].account.value < s.nextAccount)
  }

  ghost predicate Inv(s: State) { CallInv(s) && LockInv(s) && CheckedInv(s) && AccountInv(s) }

  /** Removing an account and detaching its audits: no send is inserting on it. */
  lemma DeleteKeepsSend(s: State, d: nat, b: SendId)
    requires LockInv(s) && d in s.deletions && b in s.sends && SendOk(s, b)
    ensures SendOk(Deleted(s, d), b)
  {
  }

  lemma DeleteKeepsCalls(s: State, d: nat)
    requires CallInv(s) && LockInv(s) && d in s.deletions
    ensures CallInv(Deleted(s, d))
  {
    var s' := Deleted(s, d);
    forall b | b in s'.sends ensures SendOk(s', b) { DeleteKeepsSend(s, d, b); }
    forall i | 0 <= i < |s'.calls| ensures CallOk(s', s'.calls[i]) { assert CallOk(s, s.calls[i]); }
    forall k | k in s'.audits ensures AuditOk(s', k) { assert AuditOk(s, k); }
  }

  lemma SendKeepsCalls(s: State, a: SendId, step: SendStep)
    requires CallInv(s) && SendEnabled(s, a, step)
    ensures CallInv(SendNext(s, a, step))
  {
    match step {
      case Begin(owner, account, key, hash, slots) =>
        BeginKeeps(s, a, Send(owner, account, key, hash, slots, Begun, 0, 0, Failed, s.now));
      case LookUp => LookUpKeeps(s, a);
      case ClaimNext => ClaimKeeps(s, a);
      case Insert(began) => InsertKeeps(s, a, began);
      case Record => RecordKeeps(s, a);
      case Transport => CallKeeps(s, a);
      case Reported(report, written) => ReportKeeps(s, a, report, written);
      case Fail => FailKeeps(s, a);
      case SettleNext =>
        if s.sends[a].settled < Min(s.sends[a].claimed, |s.sends[a].slots|) { SettleKeeps(s, a); } else { EndKeeps(s, a, Closed); }
      case Crash => EndKeeps(s, a, Crashed);
    }
  }

  /** A send's step writes its own record, perhaps one slot, one audit and one call, and nothing else. */
  lemma SendStepTouches(s: State, a: SendId, step: SendStep)
    requires SendEnabled(s, a, step)
    ensures var s' := SendNext(s, a, step);
            a in s'.sends && s' == s.(sends := s.sends[a := s'.sends[a]], slots := s'.slots, audits := s'.audits, calls := s'.calls)
  {
  }

  /** Only the insert itself makes a send an inserter, and only on an account that is there and not being deleted. */
  lemma InsertedOnlyByInsert(s: State, a: SendId, step: SendStep)
    requires SendEnabled(s, a, step) && Inserting(SendNext(s, a, step).sends[a])
    ensures step.Insert? && SendNext(s, a, step).sends[a].account in s.accounts
    ensures !HeldForDeletion(s, SendNext(s, a, step).sends[a].account)
  {
    if step.Insert? {
      assert InsertedAudit(s, a, step.began).sends[a].account == s.sends[a].account;
    } else {
      NothingElseInserts(s, a, step);
    }
  }

  lemma NothingElseInserts(s: State, a: SendId, step: SendStep)
    requires SendEnabled(s, a, step) && !step.Insert?
    ensures !Inserting(SendNext(s, a, step).sends[a])
  {
  }

  /** Only the commit of an insert adds an audit; only a report changes one, and only its status. */
  predicate AuditsGrow(s: State, a: SendId, audits': Audits) {
    && s.audits.Keys <= audits'.Keys
    && (forall k :: k in audits' && k !in s.audits ==>
          At(s, a, Inserted) && audits'[k] == Audit(Some(s.sends[a].account), s.sends[a].hash, "pending", s.sends[a].began, a))
    && (forall k :: k in s.audits ==>
          && audits'[k] == s.audits[k].(status := audits'[k].status)
          && (audits'[k].status != s.audits[k].status ==> s.audits[k].status == "pending"))
  }

  lemma RecordGrows(s: State, a: SendId)
    requires At(s, a, Inserted) && SendOk(s, a)
    ensures AuditsGrow(s, a, RecordedAudit(s, a).audits)
  {
  }

  lemma ReportGrows(s: State, a: SendId, r: Report, written: bool)
    requires At(s, a, Calling) && SendOk(s, a)
    ensures AuditsGrow(s, a, Answered(s, a, r, written).audits)
  {
  }

  lemma NothingElseWrites(s: State, a: SendId, step: SendStep)
    requires SendEnabled(s, a, step) && !step.Record? && !step.Reported?
    ensures SendNext(s, a, step).audits == s.audits
  {
  }

  lemma AuditsOnlyByRecord(s: State, a: SendId, step: SendStep)
    requires CallInv(s) && SendEnabled(s, a, step)
    ensures AuditsGrow(s, a, SendNext(s, a, step).audits)
  {
    assert a in s.sends ==> SendOk(s, a);
    match step {
      case Record => RecordGrows(s, a);
      case Reported(r, written) => ReportGrows(s, a, r, written);
      case _ => NothingElseWrites(s, a, step);
    }
  }

  lemma SendKeepsLocks(s: State, a: SendId, step: SendStep)
    requires LockInv(s) && SendEnabled(s, a, step)
    ensures LockInv(SendNext(s, a, step))
  {
    SendStepTouches(s, a, step);
    var s' := SendNext(s, a, step);
    if Inserting(s'.sends[a]) { InsertedOnlyByInsert(s, a, step); }
  }

  /** An audit that is added or updated is in flight only if its account is not being deleted, or it was already. */
  lemma GrowKeepsChecked(s: State, a: SendId, audits': Audits, account: AccountId, since: Time)
    requires AuditsGrow(s, a, audits') && !AnyInFlight(s.audits, account, since)
    requires At(s, a, Inserted) ==> s.sends[a].account != account
    ensures !AnyInFlight(audits', account, since)
  {
    forall k | k in audits' ensures !InFlightSend(audits'[k], account, since) {
      assert k in s.audits ==> !InFlightSend(s.audits[k], account, since);
    }
  }

  lemma SendKeepsChecks(s: State, a: SendId, step: SendStep)
    requires Inv(s) && SendEnabled(s, a, step)
    ensures CheckedInv(SendNext(s, a, step))
  {
    SendStepTouches(s, a, step);
    AuditsOnlyByRecord(s, a, step);
    var s' := SendNext(s, a, step);
    forall d | d in s.deletions && s.deletions[d].Checked?
      ensures !AnyInFlight(s'.audits, s.deletions[d].account, s.deletions[d].at - IN_FLIGHT_SEND_WINDOW)
    {
      GrowKeepsChecked(s, a, s'.audits, s.deletions[d].account, s.deletions[d].at - IN_FLIGHT_SEND_WINDOW);
    }
  }

  lemma SendKeepsAccounts(s: State, a: SendId, step: SendStep)
    requires Inv(s) && SendEnabled(s, a, step)
    ensures AccountInv(SendNext(s, a, step))
  {
    SendStepTouches(s, a, step);
    AuditsOnlyByRecord(s, a, step);
    InsertersHaveAccounts(s);
    var s' := SendNext(s, a, step);
    forall k | k in s'.audits && s'.audits[k].account.Some? ensures s'.audits[k].account.value < s'.nextAccount {
      assert k in s.audits ==> s'.audits[k].account == s.audits[k].account;
    }
  }

  lemma DeletionKeeps(s: State, d: nat, step: DeletionStep)
    requires Inv(s) && DeletionEnabled(s, d, step)
    ensures Inv(DeletionNext(s, d, step))
  {
    var s' := DeletionNext(s, d, step);
    if step.DeleteAccount? {
      DeleteKeepsCalls(s, d);
      DeleteKeepsRest(s, d);
    } else {
      InsertersHaveAccounts(s);
      SameCalls(s, s');
      KeepsChecked(s, d, step);
    }
  }

  lemma KeepsChecked(s: State, d: nat, step: DeletionStep)
    requires Inv(s) && DeletionEnabled(s, d, step) && !step.DeleteAccount?
    ensures LockInv(DeletionNext(s, d, step)) && CheckedInv(DeletionNext(s, d, step))
  {
  }

  lemma DeleteKeepsRest(s: State, d: nat)
    requires LockInv(s) && CheckedInv(s) && AccountInv(s) && d in s.deletions
    ensures LockInv(Deleted(s, d)) && CheckedInv(Deleted(s, d)) && AccountInv(Deleted(s, d))
  {
    var s' := Deleted(s, d);
    forall e | e in s'.deletions && s'.deletions[e].Checked?
      ensures !AnyInFlight(s'.audits, s'.deletions[e].account, s'.deletions[e].at - IN_FLIGHT_SEND_WINDOW)
    {
      var account, since := s.deletions[e].account, s.deletions[e].at - IN_FLIGHT_SEND_WINDOW;
      assert !AnyInFlight(s.audits, account, since);
      forall k | k in s'.audits ensures !InFlightSend(s'.audits[k], account, since) {
        assert !InFlightSend(s.audits[k], account, since);
      }
    }
  }

  lemma WorldKeepsRest(s: State, step: WorldStep)
    requires LockInv(s) && CheckedInv(s) && AccountInv(s)
    ensures LockInv(WorldNext(s, step)) && CheckedInv(WorldNext(s, step)) && AccountInv(WorldNext(s, step))
  {
  }

  lemma WorldKeepsCalls(s: State, step: WorldStep)
    requires CallInv(s)
    ensures CallInv(WorldNext(s, step))
  {
    InsertersHaveAccounts(s);
    SameCalls(s, WorldNext(s, step));
  }

  lemma WorldKeeps(s: State, step: WorldStep)
    requires Inv(s)
    ensures Inv(WorldNext(s, step))
  {
    WorldKeepsCalls(s, step);
    WorldKeepsRest(s, step);
  }

  lemma StepKeepsInv(s: State, step: Step)
    requires Inv(s)
    ensures Inv(Next(s, step))
  {
    match step {
      case OfSend(a, send) =>
        if SendEnabled(s, a, send) {
          SendKeepsCalls(s, a, send);
          SendKeepsLocks(s, a, send);
          SendKeepsChecks(s, a, send);
          SendKeepsAccounts(s, a, send);
        }
      case OfDeletion(d, deletion) => if DeletionEnabled(s, d, deletion) { DeletionKeeps(s, d, deletion); }
      case OfWorld(world) => WorldKeeps(s, world);
    }
  }

  lemma {:induction false} RunKeepsInv(s: State, steps: seq<Step>)
    requires Inv(s)
    ensures Inv(Run(s, steps))
    decreases |steps|
  {
    if steps != [] {
      StepKeepsInv(s, steps[0]);
      RunKeepsInv(Next(s, steps[0]), steps[1..]);
    }
  }

  // ---- the main results ---------------------------------------------------------------------

  /** For every owner and idempotency key, at most one transport call is ever made. */
  lemma AtMostOneCall(steps: seq<Step>, i: nat, j: nat)
    requires var calls := Run(Init, steps).calls;
             i < |calls| && j < |calls| && calls[i].owner == calls[j].owner && calls[i].key == calls[j].key
    ensures i == j
  {
    RunKeepsInv(Init, steps);
    var s := Run(Init, steps);
    assert CallOk(s, s.calls[i]) && CallOk(s, s.calls[j]);
  }

  lemma DeletionKeepsAnswer(s: State, d: nat, step: DeletionStep, k: (Owner, Key))
    requires DeletionEnabled(s, d, step) && k in s.audits
    ensures var audits' := DeletionNext(s, d, step).audits;
            k in audits' && audits'[k].hash == s.audits[k].hash && audits'[k].status == s.audits[k].status
  {
  }

  lemma RunThree(s: State, a: Step, b: Step, c: Step)
    ensures Run(s, [a, b, c]) == Next(Next(Next(s, a), b), c)
  {
    assert [a, b, c][1..] == [b, c] && [b, c][1..] == [c] && [c][1..] == [];
    assert Run(s, [a, b, c]) == Run(Next(s, a), [b, c]) == Run(Next(Next(s, a), b), [c]);
    assert Run(Next(Next(s, a), b), [c]) == Run(Next(Next(Next(s, a), b), c), []);
  }

  /** A send with a fresh key and all its slots, on an account nobody is deleting, does reach its transport. */
  lemma UnhinderedSendCalls(s: State, a: SendId)
    requires SendEnabled(s, a, Insert(s.now)) && s.sends[a].account in s.accounts
    requires (s.sends[a].owner, s.sends[a].key) !in s.audits
    ensures var x := s.sends[a];
            var s' := Run(s, [OfSend(a, Insert(s.now)), OfSend(a, Record), OfSend(a, Transport)]);
            && s'.calls == s.calls + [Call(x.owner, x.key, a)]
            && (x.owner, x.key) in s'.audits && s'.audits[(x.owner, x.key)].status == "pending"
            && Prior(s'.audits, x.owner, x.key, x.hash) == NotRetried("pending")
  {
    RunThree(s, OfSend(a, Insert(s.now)), OfSend(a, Record), OfSend(a, Transport));
  }

  lemma SendKeepsAnswer(s: State, a: SendId, step: SendStep, k: (Owner, Key))
    requires CallInv(s) && SendEnabled(s, a, step) && k in s.audits && s.audits[k].status != "pending"
    ensures var audits' := SendNext(s, a, step).audits;
            k in audits' && audits'[k].hash == s.audits[k].hash && audits'[k].status == s.audits[k].status
  {
    AuditsOnlyByRecord(s, a, step);
  }

  lemma StepKeepsAnswer(s: State, step: Step, k: (Owner, Key))
    requires CallInv(s) && k in s.audits && s.audits[k].status != "pending"
    ensures var audits' := Next(s, step).audits;
            k in audits' && audits'[k].hash == s.audits[k].hash && audits'[k].status == s.audits[k].status
  {
    match step {
      case OfSend(a, send) => if SendEnabled(s, a, send) { SendKeepsAnswer(s, a, send, k); }
      case OfDeletion(d, deletion) => if DeletionEnabled(s, d, deletion) { DeletionKeepsAnswer(s, d, deletion, k); }
      case OfWorld(world) =>
    }
  }

  lemma {:induction false} RunKeepsAnswer(s: State, steps: seq<Step>, k: (Owner, Key))
    requires Inv(s) && k in s.audits && s.audits[k].status != "pending"
    ensures var audits' := Run(s, steps).audits;
            k in audits' && audits'[k].hash == s.audits[k].hash && audits'[k].status == s.audits[k].status
    decreases |steps|
  {
    if steps != [] {
      StepKeepsAnswer(s, steps[0], k);
      StepKeepsInv(s, steps[0]);
      RunKeepsAnswer(Next(s, steps[0]), steps[1..], k);
    }
  }

  /** The record is append-only: what a settled key answers to a retry it answers for ever, account or no account. */
  lemma AnswersAreForGood(before: seq<Step>, after: seq<Step>, k: (Owner, Key), hash: nat)
    requires var audits := Run(Init, before).audits; k in audits && audits[k].status != "pending"
    ensures Prior(Run(Run(Init, before), after).audits, k.0, k.1, hash) == Prior(Run(Init, before).audits, k.0, k.1, hash)
  {
    RunKeepsInv(Init, before);
    RunKeepsAnswer(Run(Init, before), after, k);
  }

  /** A deletion never commits beside a pending send younger than the window. */
  lemma NoDeletionBesideAYoungSend(steps: seq<Step>, d: nat, k: (Owner, Key))
    requires var s := Run(Init, steps); DeletionEnabled(s, d, DeleteAccount) && k in s.audits
    ensures var s := Run(Init, steps);
            !InFlightSend(s.audits[k], s.deletions[d].account, s.now - IN_FLIGHT_SEND_WINDOW)
  {
    RunKeepsInv(Init, steps);
    var s := Run(Init, steps);
    var account, at := s.deletions[d].account, s.deletions[d].at;
    assert !AnyInFlight(s.audits, account, at - IN_FLIGHT_SEND_WINDOW);
    assert !InFlightSend(s.audits[k], account, at - IN_FLIGHT_SEND_WINDOW);
  }

  /** A send overtaken by the deletion of its account before its audit was committed. */
  predicate Overtaken(s: State, a: SendId) {
    && a in s.sends && s.sends[a].account < s.nextAccount && s.sends[a].account !in s.accounts
    && s.sends[a].phase !in {Inserted, Recorded, Calling} && !HasCalled(s.calls, a)
  }

  lemma OthersCannotHelp(s: State, b: SendId, step: SendStep, a: SendId)
    requires Overtaken(s, a) && a != b && SendEnabled(s, b, step)
    ensures Overtaken(SendNext(s, b, step), a)
  {
    SendStepTouches(s, b, step);
    CallsOnlyByTransport(s, b, step, a);
  }

  lemma DeletionsCannotHelp(s: State, d: nat, step: DeletionStep, a: SendId)
    requires Overtaken(s, a) && DeletionEnabled(s, d, step)
    ensures Overtaken(DeletionNext(s, d, step), a)
  {
  }

  lemma WorldCannotHelp(s: State, step: WorldStep, a: SendId)
    requires Overtaken(s, a)
    ensures Overtaken(WorldNext(s, step), a)
  {
  }

  lemma OvertakenStays(s: State, step: Step, a: SendId)
    requires Inv(s) && Overtaken(s, a)
    ensures Overtaken(Next(s, step), a)
  {
    match step {
      case OfSend(b, send) =>
        if SendEnabled(s, b, send) {
          if a == b { OwnStepOvertaken(s, a, send); } else { OthersCannotHelp(s, b, send, a); }
        }
      case OfDeletion(d, deletion) => if DeletionEnabled(s, d, deletion) { DeletionsCannotHelp(s, d, deletion, a); }
      case OfWorld(world) => WorldCannotHelp(s, world, a);
    }
  }

  lemma CallsOnlyByTransport(s: State, a: SendId, step: SendStep, b: SendId)
    requires SendEnabled(s, a, step) && (a == b ==> !At(s, a, Recorded))
    ensures HasCalled(SendNext(s, a, step).calls, b) == HasCalled(s.calls, b)
  {
    if step.Transport? {
      SameCallers(s.calls, Call(s.sends[a].owner, s.sends[a].key, a), b);
    }
  }

  lemma OwnStepOvertaken(s: State, a: SendId, step: SendStep)
    requires Inv(s) && Overtaken(s, a) && SendEnabled(s, a, step)
    ensures Overtaken(SendNext(s, a, step), a)
  {
    SendStepTouches(s, a, step);
    CallsOnlyByTransport(s, a, step, a);
    if Inserting(SendNext(s, a, step).sends[a]) { InsertedOnlyByInsert(s, a, step); }
  }

  lemma {:induction false} OvertakenForGood(s: State, steps: seq<Step>, a: SendId)
    requires Inv(s) && Overtaken(s, a)
    ensures Inv(Run(s, steps)) && Overtaken(Run(s, steps), a)
    decreases |steps|
  {
    if steps != [] {
      OvertakenStays(s, steps[0], a);
      StepKeepsInv(s, steps[0]);
      OvertakenForGood(Next(s, steps[0]), steps[1..], a);
    }
  }

  /** A send whose account is deleted before its audit is committed reaches no transport, ever. */
  lemma OvertakenSendsNothing(before: seq<Step>, after: seq<Step>, a: SendId)
    requires Overtaken(Run(Init, before), a)
    ensures var s := Run(Run(Init, before), after);
            && Overtaken(s, a) && SendOk(s, a)
            && forall i :: 0 <= i < |s.calls| ==> s.calls[i].sender != a
  {
    RunKeepsInv(Init, before);
    OvertakenForGood(Run(Init, before), after, a);
    assert SendOk(Run(Run(Init, before), after), a);
  }
}
