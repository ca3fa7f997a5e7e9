/** What a send reads back, and a scratch file that a reclaim misses. */
module UploadPayloads {
  import opened Common
  import opened UploadRows
  import opened UploadProtocol
  import opened UploadFiles

  /** The digest recorded at promotion catches every payload that is not the streamed one. */
  lemma LoadedIsStreamed(v: Volume, slot: SlotId)
    requires FileInv(v) && Loaded(v, slot).Some?
    ensures slot in v.landed && slot in v.winner && v.winner[slot] in v.puts
    ensures Loaded(v, slot).value == Streamed(v, slot)
  {
    assert RowOk(v, slot) && DestOk(v, slot);
  }

  /** What happened to a slot whose payload has landed is settled: winner and bytes stay. */
  ghost predicate Settled(v: Volume, v': Volume) {
    forall id :: id in v.landed && id in v.winner && v.winner[id] in v.puts ==>
      && id in v'.landed && id in v'.winner && v'.winner[id] == v.winner[id] && v.winner[id] in v'.puts
      && v'.puts[v.winner[id]].streamed == v.puts[v.winner[id]].streamed
  }

  lemma WriteSettles(v: Volume, t: Token, chunk: Bytes)
    requires FileInv(v)
    ensures Settled(v, Written(v, t, chunk))
  {
    forall id | id in v.landed && id in v.winner ensures WinnerOk(v, id) { }
  }

  lemma PromoteSettles(v: Volume, t: Token)
    requires FileInv(v)
    ensures Settled(v, Promoting(v, t))
  {
    if PutIn(v, t, Streaming) && Matches(v.rows, v.puts[t].slot, Receiving, Some(t)) {
      assert RowOk(v, v.puts[t].slot);
    }
  }

  lemma RollbackSettles(v: Volume, t: Token)
    requires FileInv(v)
    ensures Settled(v, RolledBack(v, t))
  {
    if PutIn(v, t, RollingBack) {
      assert PutOk(v, t);
    }
  }

  lemma OpenSettles(v: Volume, t: Token)
    ensures Settled(v, Opened(v, t))
  {
  }

  lemma GiveUpSettles(v: Volume, t: Token)
    ensures Settled(v, GivenUp(v, t))
  {
  }

  lemma CrashSettles(v: Volume, t: Token)
    ensures Settled(v, PutCrashed(v, t))
  {
  }

  lemma ReplaceSettles(v: Volume, t: Token, ok: bool)
    ensures Settled(v, Replacing(v, t, ok))
  {
  }

  lemma UnlinkSettles(v: Volume, t: Token)
    ensures Settled(v, Unlinking(v, t))
  {
  }

  lemma HandBackSettles(v: Volume, t: Token)
    ensures Settled(v, HandedBack(v, t))
  {
  }

  lemma RenewSettles(v: Volume, t: Token)
    ensures Settled(v, Renewed(v, t))
  {
  }

  lemma PutSettles(v: Volume, t: Token, step: PutStep)
    requires FileInv(v)
    ensures Settled(v, NextPut(v, t, step))
  {
    match step {
      case Open => OpenSettles(v, t);
      case Write(chunk) => WriteSettles(v, t, chunk);
      case RenewLease => RenewSettles(v, t);
      case GiveUp => GiveUpSettles(v, t);
      case PromoteRow => PromoteSettles(v, t);
      case ReplaceFile(ok) => ReplaceSettles(v, t, ok);
      case Rollback => RollbackSettles(v, t);
      case UnlinkOwn => UnlinkSettles(v, t);
      case HandBackRow => HandBackSettles(v, t);
      case CrashPut => CrashSettles(v, t);
    }
  }

  lemma ReclaimSettles(v: Volume, r: PendingReclaim)
    ensures Settled(v, Reclaimed(v, r))
  {
  }

  lemma HouseSettles(v: Volume, step: HouseStep)
    ensures Settled(v, NextHouse(v, step))
  {
    if step.ReclaimUpdate? {
      ReclaimSettles(v, step.reclaim);
    }
  }

  lemma SweepSettles(v: Volume, w: nat, step: SweepStep)
    ensures Settled(v, NextSweep(v, w, step))
  {
  }

  lemma TakeSettles(v: Volume, slot: SlotId)
    ensures Settled(v, TakenForSend(v, slot))
  {
  }

  lemma SettleSettles(v: Volume, slot: SlotId, outcome: Outcome)
    ensures Settled(v, SettledSlot(v, slot, outcome))
  {
  }

  lemma ReceiveSettles(v: Volume, slot: SlotId)
    requires FileInv(v)
    ensures Settled(v, Receive(v, slot))
  {
    forall id | id in v.landed && id in v.winner ensures WinnerOk(v, id) && PutOk(v, v.winner[id]) { }
  }

  lemma SendSettles(s: State, a: nat, step: SendStep)
    ensures Settled(s.vol, NextSend(s, a, step).vol)
  {
    if a in s.sends {
      var x := s.sends[a];
      if step.ClaimNext? && |x.tokens| < |x.slots| {
        TakeSettles(s.vol, x.slots[|x.tokens|]);
      } else if step.SettleNext? && x.settled < |x.slots| {
        SettleSettles(s.vol, x.slots[x.settled], x.outcome);
      }
    }
  }

  lemma StepSettles(s: State, step: Step)
    requires FileInv(s.vol)
    ensures Settled(s.vol, Next(s, step).vol)
  {
    match step {
      case Tick(d) =>
      case Begin(owner, declared, ttl) =>
      case PutClaim(slot) => ReceiveSettles(s.vol, slot);
      case SendStart(a, kind, slots) =>
      case OfPut(t, ps) => PutSettles(s.vol, t, ps);
      case OfSend(a, ss) => SendSettles(s, a, ss);
      case OfHouse(hs) => HouseSettles(s.vol, hs);
      case OfSweep(w, ws) => SweepSettles(s.vol, w, ws);
    }
  }

  /** A payload a send has read is what the slot's winning attempt streamed. */
  predicate PayloadsOk(v: Volume, x: Send) {
    |x.payloads| <= |x.slots|
    && forall j :: 0 <= j < |x.payloads| ==>
         && x.slots[j] in v.landed && x.slots[j] in v.winner && v.winner[x.slots[j]] in v.puts
         && x.payloads[j] == Streamed(v, x.slots[j])
  }

  ghost predicate PayloadInv(s: State) { forall a :: a in s.sends ==> PayloadsOk(s.vol, s.sends[a]) }

  lemma AdvancedPayloads(v: Volume, x: Send, step: SendStep, loaded: Option<Bytes>)
    requires FileInv(v) && PayloadsOk(v, x)
    requires loaded == if |x.payloads| < |x.slots| then Loaded(v, x.slots[|x.payloads|]) else None
    ensures PayloadsOk(v, Advanced(x, step, loaded))
  {
    if loaded.Some? {
      LoadedIsStreamed(v, x.slots[|x.payloads|]);
    }
  }

  /** What one step makes of a send's record: the same payloads, a new record, or the send's own advance. */
  lemma SendRecordMoves(s: State, step: Step, a: nat)
    requires a in Next(s, step).sends
    ensures var x' := Next(s, step).sends[a];
            if a !in s.sends then x'.payloads == []
            else (x'.slots == s.sends[a].slots && x'.payloads == s.sends[a].payloads)
                 || (step.OfSend? && step.send == a && x' == Advanced(s.sends[a], step.sendStep, NextPayload(s, s.sends[a])))
  {
  }

  /** ... so its payloads stay as they are, or there is one more that is right. */
  lemma SendRecordPayloads(s: State, step: Step, a: nat)
    requires FileInv(s.vol) && PayloadInv(s) && a in Next(s, step).sends
    ensures PayloadsOk(s.vol, Next(s, step).sends[a])
  {
    SendRecordMoves(s, step, a);
    if a in s.sends && step.OfSend? {
      AdvancedPayloads(s.vol, s.sends[a], step.sendStep, NextPayload(s, s.sends[a]));
    }
  }

  lemma SettledPayloads(v: Volume, v': Volume, x: Send)
    requires Settled(v, v') && PayloadsOk(v, x)
    ensures PayloadsOk(v', x)
  {
  }

  lemma StepKeepsPayloads(s: State, step: Step)
    requires FileInv(s.vol) && PayloadInv(s)
    ensures PayloadInv(Next(s, step))
  {
    var s' := Next(s, step);
    StepSettles(s, step);
    forall a | a in s'.sends ensures PayloadsOk(s'.vol, s'.sends[a]) {
      SendRecordPayloads(s, step, a);
      SettledPayloads(s.vol, s'.vol, s'.sends[a]);
    }
  }

  lemma {:induction false} RunKeepsPayloads(s: State, steps: seq<Step>)
    requires FileInv(s.vol) && PayloadInv(s)
    ensures PayloadInv(Run(s, steps))
    decreases |steps|
  {
    if steps != [] {
      StepKeepsFiles(s, steps[0]);
      StepKeepsPayloads(s, steps[0]);
      RunKeepsPayloads(Next(s, steps[0]), steps[1..]);
    }
  }

  /**
   Every payload any send ever read, and so every payload given to a transport, is byte for byte what
   the slot's one promoted attempt streamed -- even if a sweep was removing the slot meanwhile.
   */
  lemma HandedBytesAreExact(steps: seq<Step>, a: nat, j: nat)
    requires var s := Run(Init, steps); a in s.sends && j < |s.sends[a].payloads|
    ensures var s := Run(Init, steps);
            var x := s.sends[a];
            && j < |x.slots| && x.slots[j] in s.vol.winner && s.vol.winner[x.slots[j]] in s.vol.puts
            && s.vol.puts[s.vol.winner[x.slots[j]]].slot == x.slots[j]
            && x.payloads[j] == Streamed(s.vol, x.slots[j])
  {
    RunKeepsPayloads(Init, steps);
    ReachableFiles(steps);
    var s := Run(Init, steps);
    assert PayloadsOk(s.vol, s.sends[a]);
    assert WinnerOk(s.vol, s.sends[a].slots[j]);
  }

  // ---- the file a reclaim misses ------------------------------------------------------------

  /** A won reclaim queues the file of the claim it cleared exactly when the token it read first was still current. */
  lemma ReclaimDiscardsWhatItCleared(v: Volume, r: PendingReclaim)
    requires r in v.reclaims && r.from == Receiving && Lapsed(v.rows, r.slot, Receiving, v.now)
    requires v.rows[r.slot].token.Some? && v.rows[r.slot].token.value !in v.discards
    ensures v.rows[r.slot].token.value in Reclaimed(v, r).discards <==> r.read == v.rows[r.slot].token
  {
  }

  const Fresh: Row := NewRow(7, None, 2000)
  const Taken: Row := Fresh.(state := Receiving, lease := Some(300))
  const StalledRead: PendingReclaim := PendingReclaim(0, Receiving, Some(0))

  /** One attempt is receiving, and a reclaim has read its token. */
  const One: Volume :=
    Volume(0, 1, 1, map[0 := Taken.(token := Some(0))], map[], map[], map[0 := Put(0, Claimed, [])],
           {StalledRead}, {}, {}, map[], map[], {}, map[], {})

  /** That attempt has failed and handed the slot back. */
  const Two: Volume :=
    One.(rows := map[0 := Fresh], puts := map[0 := Put(0, PutEnded, [])])

  /** A second attempt has claimed the slot and written its bytes; its lease has run out. */
  function Three(chunk: Bytes): Volume {
    Two.(now := 300, nextToken := 2, rows := map[0 := Taken.(token := Some(1))],
         puts := map[0 := Put(0, PutEnded, []), 1 := Put(0, Streaming, chunk)], parts := map[1 := chunk])
  }

  const FirstAttempt: seq<Step> := [Begin(7, None, 2000), PutClaim(0), OfHouse(ReclaimRead(0, Receiving))]
  const ItFails: seq<Step> := [OfPut(0, GiveUp), OfPut(0, UnlinkOwn), OfPut(0, HandBackRow)]

  function SecondAttempt(chunk: Bytes): seq<Step> {
    [PutClaim(0), OfPut(1, Open), OfPut(1, Write(chunk)), Tick(300)]
  }

  lemma FirstAttemptRuns()
    ensures Run(Init, FirstAttempt) == State(One, map[])
  {
    RunOfThree(Init, FirstAttempt[0], FirstAttempt[1], FirstAttempt[2]);
  }

  lemma ItFailsRuns()
    ensures Run(State(One, map[]), ItFails) == State(Two, map[])
  {
    var s := State(One, map[]);
    RunOfThree(s, ItFails[0], ItFails[1], ItFails[2]);
    var s1 := Next(s, ItFails[0]);
    assert s1 == State(One.(puts := s1.vol.puts), map[]);
    var s2 := Next(s1, ItFails[1]);
    assert s2 == State(One.(puts := s2.vol.puts), map[]);
  }

  lemma SecondAttemptRuns(chunk: Bytes)
    ensures Run(State(Two, map[]), SecondAttempt(chunk)) == State(Three(chunk), map[])
  {
    var s := SecondAttempt(chunk);
    assert s == s[..3] + s[3..];
    RunConcat(State(Two, map[]), s[..3], s[3..]);
    RunOfThree(State(Two, map[]), s[0], s[1], s[2]);
    assert s[..3] == [s[0], s[1], s[2]] && s[3..] == [s[3]] && [] + chunk == chunk;
    assert [s[3]][1..] == [];
  }

  function MissedFile(chunk: Bytes): seq<Step> {
    FirstAttempt + ItFails + SecondAttempt(chunk) + [OfHouse(ReclaimUpdate(StalledRead))]
  }

  lemma TheStalledReclaimRuns(chunk: Bytes)
    ensures var v := Run(State(Three(chunk), map[]), [OfHouse(ReclaimUpdate(StalledRead))]).vol;
            && v.rows == map[0 := Fresh] && v.puts == Three(chunk).puts && v.parts == Three(chunk).parts
            && v.discards == {0}
  {
    var step := OfHouse(ReclaimUpdate(StalledRead));
    assert [step][1..] == [];
    assert Run(State(Three(chunk), map[]), [step]) == Next(State(Three(chunk), map[]), step);
  }

  /**
   The token is read outside the UPDATE, so the two can differ. Here the reclaim dispossesses the second
   attempt but queues the first one's file for removal: the slot is 'pending', nothing is charged for its
   bytes, and the second attempt's bytes stay on the volume with nobody about to remove them.
   */
  lemma AReclaimCanMissAFile(chunk: Bytes)
    ensures var v := Run(Init, MissedFile(chunk)).vol;
            && 0 in v.rows && v.rows[0].state == Pending && v.rows[0].received == 0
            && HasLost(v, 1) && 1 in v.parts && v.parts[1] == chunk && v.discards == {0}
  {
    RunConcat(Init, FirstAttempt + ItFails + SecondAttempt(chunk), [OfHouse(ReclaimUpdate(StalledRead))]);
    RunConcat(Init, FirstAttempt + ItFails, SecondAttempt(chunk));
    RunConcat(Init, FirstAttempt, ItFails);
    FirstAttemptRuns();
    ItFailsRuns();
    SecondAttemptRuns(chunk);
    TheStalledReclaimRuns(chunk);
  }
}
