/** What a key answers once its send has reported: the report, for ever, whatever happens to the account. */
module SendAnswers {
  import opened Common
  import opened UploadRows
  import opened SendLedger
  import opened SendOnce

  /** Every audit carries the request hash of the send that wrote it. */
  ghost predicate HashInv(s: State) {
    forall k :: k in s.audits ==> s.audits[k].sender in s.sends && s.audits[k].hash == s.sends[s.audits[k].sender].hash
  }

  /** The send that wrote this audit has nothing more to say. */
  predicate Reported(s: State, k: (Owner, Key)) {
    k in s.audits && s.audits[k].sender in s.sends && Over(s.sends[s.audits[k].sender])
  }

  predicate SameAudit(s: State, s': State, k: (Owner, Key))
    requires k in s.audits
  {
    && k in s'.audits && s'.audits[k].hash == s.audits[k].hash && s'.audits[k].status == s.audits[k].status
    && s'.audits[k].sender == s.audits[k].sender
  }

  predicate SameRequest(x: Send, x': Send) { x'.hash == x.hash && x'.owner == x.owner && x'.key == x.key }

  lemma WritersKeepThemselves(s: State, a: SendId, step: SendStep)
    requires SendEnabled(s, a, step) && (step.Insert? || step.Record? || step.Transport? || step.Reported?)
    ensures SameRequest(s.sends[a], SendNext(s, a, step).sends[a])
  {
  }

  lemma SendKeepsItself(s: State, a: SendId, step: SendStep)
    requires SendEnabled(s, a, step) && a in s.sends
    ensures SameRequest(s.sends[a], SendNext(s, a, step).sends[a])
  {
    if step.Insert? || step.Record? || step.Transport? || step.Reported? {
      WritersKeepThemselves(s, a, step);
    }
  }

  predicate Over(x: Send) { x.phase in {Settling, Closed, Crashed} }

  /** Once a send settles it never calls or reports again. */
  lemma OverStaysOver(s: State, a: SendId, step: SendStep)
    requires SendEnabled(s, a, step) && a in s.sends && Over(s.sends[a])
    ensures !step.Record? && !step.Reported? && Over(SendNext(s, a, step).sends[a])
  {
  }

  lemma SendKeepsHashes(s: State, a: SendId, step: SendStep)
    requires CallInv(s) && HashInv(s) && SendEnabled(s, a, step)
    ensures HashInv(SendNext(s, a, step))
  {
    var s' := SendNext(s, a, step);
    SendStepTouches(s, a, step);
    AuditsOnlyByRecord(s, a, step);
    if a in s.sends { SendKeepsItself(s, a, step); }
    forall k | k in s'.audits ensures s'.audits[k].sender in s'.sends && s'.audits[k].hash == s'.sends[s'.audits[k].sender].hash {
      assert k in s.audits ==> AuditOk(s, k) && s'.audits[k].sender == s.audits[k].sender;
    }
  }

  /** A deletion takes the account off its audits and leaves them else as they were. */
  lemma DeletionRewritesNothing(s: State, d: nat, step: DeletionStep)
    requires DeletionEnabled(s, d, step)
    ensures var s' := DeletionNext(s, d, step);
            s'.sends == s.sends && s'.audits.Keys == s.audits.Keys && forall k :: k in s.audits ==> SameAudit(s, s', k)
  {
  }

  lemma WorldRewritesNothing(s: State, step: WorldStep)
    ensures WorldNext(s, step).sends == s.sends && WorldNext(s, step).audits == s.audits
  {
  }

  lemma StepKeepsHashes(s: State, step: Step)
    requires CallInv(s) && HashInv(s)
    ensures HashInv(Next(s, step))
  {
    match step {
      case OfSend(a, send) => if SendEnabled(s, a, send) { SendKeepsHashes(s, a, send); }
      case OfDeletion(d, deletion) => if DeletionEnabled(s, d, deletion) { DeletionRewritesNothing(s, d, deletion); }
      case OfWorld(world) => WorldRewritesNothing(s, world);
    }
  }

  lemma {:induction false} RunKeepsHashes(s: State, steps: seq<Step>)
    requires Inv(s) && HashInv(s)
    ensures HashInv(Run(s, steps))
    decreases |steps|
  {
    if steps != [] {
      StepKeepsInv(s, steps[0]);
      StepKeepsHashes(s, steps[0]);
      RunKeepsHashes(Next(s, steps[0]), steps[1..]);
    }
  }

  lemma OnlyOwnAudit(s: State, a: SendId, step: SendStep, k: (Owner, Key))
    requires SendEnabled(s, a, step) && (step.Record? || step.Reported?) && k in s.audits && k != (s.sends[a].owner, s.sends[a].key)
    ensures SameAudit(s, SendNext(s, a, step), k)
  {
  }

  lemma SendKeepsReport(s: State, a: SendId, step: SendStep, k: (Owner, Key))
    requires CallInv(s) && Reported(s, k) && SendEnabled(s, a, step)
    ensures Reported(SendNext(s, a, step), k) && SameAudit(s, SendNext(s, a, step), k)
  {
    SendStepTouches(s, a, step);
    if a in s.sends && Over(s.sends[a]) { OverStaysOver(s, a, step); }
    if step.Record? || step.Reported? {
      assert SendOk(s, a);
      OnlyOwnAudit(s, a, step, k);
    } else {
      NothingElseWrites(s, a, step);
    }
  }

  lemma StepKeepsReport(s: State, step: Step, k: (Owner, Key))
    requires CallInv(s) && Reported(s, k)
    ensures Reported(Next(s, step), k) && SameAudit(s, Next(s, step), k)
  {
    match step {
      case OfSend(a, send) => if SendEnabled(s, a, send) { SendKeepsReport(s, a, send, k); }
      case OfDeletion(d, deletion) => if DeletionEnabled(s, d, deletion) { DeletionRewritesNothing(s, d, deletion); }
      case OfWorld(world) => WorldRewritesNothing(s, world);
    }
  }

  lemma {:induction false} RunKeepsReport(s: State, steps: seq<Step>, k: (Owner, Key))
    requires Inv(s) && Reported(s, k)
    ensures Reported(Run(s, steps), k) && SameAudit(s, Run(s, steps), k)
    decreases |steps|
  {
    if steps != [] {
      StepKeepsInv(s, steps[0]);
      StepKeepsReport(s, steps[0], k);
      RunKeepsReport(Next(s, steps[0]), steps[1..], k);
    }
  }

  /** What the record says of a report. */
  predicate Says(s: State, k: (Owner, Key), hash: nat, status: string) {
    k in s.audits && s.audits[k].hash == hash && s.audits[k].status == status
  }

  /** The step that reports writes what was reported, or leaves 'pending' if the write fails. */
  lemma ReportIsWritten(s: State, a: SendId, r: Report, written: bool)
    requires CallInv(s) && HashInv(s) && At(s, a, Calling)
    ensures var x, s' := s.sends[a], Next(s, OfSend(a, SendStep.Reported(r, written)));
            && Reported(s', (x.owner, x.key))
            && Says(s', (x.owner, x.key), x.hash,
                    if !written then "pending" else if r.success then "sent" else if r.delivery.Some? then r.delivery.value else "failed")
  {
    assert SendOk(s, a);
  }

  /**
   What a retry is told after a report, for ever: another request under the same key is refused, a success
   is replayed, and anything else is refused with the delivery state that was reported, 'failed' if there
   was none; if the report could not be written, the send counts as pending.
   */
  lemma ReportIsTheAnswer(before: seq<Step>, a: SendId, r: Report, written: bool, after: seq<Step>, hash: nat)
    requires At(Run(Init, before), a, Calling)
    ensures var x := Run(Init, before).sends[a];
            var s := Run(Next(Run(Init, before), OfSend(a, SendStep.Reported(r, written))), after);
            Prior(s.audits, x.owner, x.key, hash) ==
              if hash != x.hash then HashConflict
              else if !written then NotRetried("pending")
              else if r.success || r.delivery == Some("sent") then Replay
              else NotRetried(if r.delivery.Some? then r.delivery.value else "failed")
  {
    var s := Run(Init, before);
    RunKeepsInv(Init, before);
    RunKeepsHashes(Init, before);
    ReportIsWritten(s, a, r, written);
    StepKeepsInv(s, OfSend(a, SendStep.Reported(r, written)));
    RunKeepsReport(Next(s, OfSend(a, SendStep.Reported(r, written))), after, (s.sends[a].owner, s.sends[a].key));
  }

  /** And so a retry of the same key ends at its look-up, without a slot or a call. */
  lemma RetryEndsAtOnce(before: seq<Step>, b: SendId)
    requires var s := Run(Init, before); At(s, b, Begun) && (s.sends[b].owner, s.sends[b].key) in s.audits
    ensures var s := Run(Init, before);
            Next(s, OfSend(b, LookUp)) == s.(sends := s.sends[b := s.sends[b].(phase := Closed)])
  {
  }
}
