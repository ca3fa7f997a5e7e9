/**
 The lease of a PUT over whole runs: an attempt that claims its slot and then renews at least once per
 LEASE_SECONDS keeps it against every reclaim, and one that does not can lose it from exactly then on.
 */
module UploadLeases {
  import opened Common
  import opened UploadRows
  import opened UploadProtocol
  import opened UploadSafety

  /** The attempt is between its claim and the end of its body. */
  predicate Uploading(v: Volume, t: Token) { t in v.puts && (v.puts[t].phase == Claimed || v.puts[t].phase == Streaming) }

  /** When the attempt last claimed or renewed, after one more step. */
  function LastSign(s: State, step: Step, t: Token, last: Time): Time {
    if step == OfPut(t, RenewLease) && PutIn(s.vol, t, Streaming) then s.vol.now else last
  }

  function LastSignOf(s: State, steps: seq<Step>, t: Token, last: Time): Time
    decreases |steps|
  {
    if steps == [] then last else LastSignOf(Next(s, steps[0]), steps[1..], t, LastSign(s, steps[0], t, last))
  }

  /** At every statement of the run, for as long as it uploads, its last sign of life is less than a lease ago. */
  ghost predicate Punctual(s: State, steps: seq<Step>, t: Token, last: Time)
    decreases |steps|
  {
    steps != [] ==>
      && (Uploading(s.vol, t) ==> s.vol.now < last + LEASE_SECONDS)
      && Punctual(Next(s, steps[0]), steps[1..], t, LastSign(s, steps[0], t, last))
  }

  /** While it uploads the slot is the attempt's, unless a sweep has deleted it, and its lease counts from the last sign. */
  predicate Keeping(v: Volume, t: Token, slot: SlotId, last: Time) {
    && t < v.nextToken && slot < v.nextSlot && t in v.puts && v.puts[t].slot == slot
    && (Uploading(v, t) && slot in v.rows ==>
          Matches(v.rows, slot, Receiving, Some(t)) && v.rows[slot].lease == Some(last + LEASE_SECONDS))
  }

  /** An attempt never changes its slot, nor does it start to upload again. */
  lemma QuietSlotStays(v: Volume, t: Token, step: PutStep)
    requires t in v.puts && QuietPut(step)
    ensures t in NextPut(v, t, step).puts && NextPut(v, t, step).puts[t].slot == v.puts[t].slot
  {
  }

  lemma QuietStartsNothing(v: Volume, t: Token, step: PutStep)
    requires t in v.puts && QuietPut(step)
    ensures Uploading(NextPut(v, t, step), t) ==> Uploading(v, t)
  {
  }

  lemma QuietMintsNothing(v: Volume, k: Token, step: PutStep)
    requires QuietPut(step)
    ensures NextPut(v, k, step).nextToken == v.nextToken
  {
  }

  lemma QuietLeavesAttempt(v: Volume, k: Token, step: PutStep, t: Token)
    requires t in v.puts && k != t && QuietPut(step)
    ensures t in NextPut(v, k, step).puts && NextPut(v, k, step).puts[t] == v.puts[t]
  {
  }

  lemma RenewalKeeps(v: Volume, t: Token, slot: SlotId, last: Time)
    requires Keeping(v, t, slot, last)
    ensures Keeping(Renewed(v, t), t, slot, if PutIn(v, t, Streaming) then v.now else last)
  {
  }

  lemma PromotionKeeps(v: Volume, t: Token, slot: SlotId, last: Time)
    requires Keeping(v, t, slot, last)
    ensures Keeping(Promoting(v, t), t, slot, last)
  {
  }

  lemma RollbackKeeps(v: Volume, t: Token, slot: SlotId, last: Time)
    requires Keeping(v, t, slot, last)
    ensures Keeping(RolledBack(v, t), t, slot, last)
  {
  }

  lemma HandBackKeeps(v: Volume, t: Token, slot: SlotId, last: Time)
    requires Keeping(v, t, slot, last)
    ensures Keeping(HandedBack(v, t), t, slot, last)
  {
  }

  lemma OwnStepKeeps(v: Volume, t: Token, step: PutStep, slot: SlotId, last: Time)
    requires Keeping(v, t, slot, last)
    ensures Keeping(NextPut(v, t, step), t, slot, if step.RenewLease? && PutIn(v, t, Streaming) then v.now else last)
  {
    if QuietPut(step) {
      QuietMintsNothing(v, t, step);
      QuietSlotStays(v, t, step);
      QuietStartsNothing(v, t, step);
      QuietPutsKeepRows(v, t, step);
    } else {
      match step {
        case RenewLease => RenewalKeeps(v, t, slot, last);
        case PromoteRow => PromotionKeeps(v, t, slot, last);
        case Rollback => RollbackKeeps(v, t, slot, last);
        case HandBackRow => HandBackKeeps(v, t, slot, last);
      }
    }
  }

  /** What leaves another attempt's record alone, adds no row, and passes by a row that attempt is receiving. */
  predicate PassesBy(v: Volume, v': Volume, t: Token, slot: SlotId)
    requires t in v.puts
  {
    && v'.nextToken == v.nextToken && v'.nextSlot == v.nextSlot && t in v'.puts && v'.puts[t] == v.puts[t]
    && (slot in v'.rows ==> slot in v.rows)
    && (Matches(v.rows, slot, Receiving, Some(t)) ==> slot in v'.rows && v'.rows[slot] == v.rows[slot])
  }

  lemma RenewalPassesBy(v: Volume, k: Token, t: Token, slot: SlotId)
    requires t in v.puts && k != t
    ensures PassesBy(v, Renewed(v, k), t, slot)
  {
  }

  lemma PromotionPassesBy(v: Volume, k: Token, t: Token, slot: SlotId)
    requires t in v.puts && k != t
    ensures PassesBy(v, Promoting(v, k), t, slot)
  {
  }

  lemma RollbackPassesBy(v: Volume, k: Token, t: Token, slot: SlotId)
    requires t in v.puts && k != t
    ensures PassesBy(v, RolledBack(v, k), t, slot)
  {
  }

  lemma HandBackPassesBy(v: Volume, k: Token, t: Token, slot: SlotId)
    requires t in v.puts && k != t
    ensures PassesBy(v, HandedBack(v, k), t, slot)
  {
  }

  lemma OtherPutKeeps(v: Volume, k: Token, step: PutStep, t: Token, slot: SlotId, last: Time)
    requires Keeping(v, t, slot, last) && k != t
    ensures Keeping(NextPut(v, k, step), t, slot, last)
  {
    if QuietPut(step) {
      QuietMintsNothing(v, k, step);
      QuietLeavesAttempt(v, k, step, t);
      QuietPutsKeepRows(v, k, step);
    } else {
      match step {
        case RenewLease => RenewalPassesBy(v, k, t, slot);
        case PromoteRow => PromotionPassesBy(v, k, t, slot);
        case Rollback => RollbackPassesBy(v, k, t, slot);
        case HandBackRow => HandBackPassesBy(v, k, t, slot);
      }
    }
  }

  lemma SendKeeps(s: State, a: nat, step: SendStep, t: Token, slot: SlotId, last: Time)
    requires Keeping(s.vol, t, slot, last)
    ensures Keeping(NextSend(s, a, step).vol, t, slot, last)
  {
  }

  /** A reclaim takes the slot only from an attempt whose last sign is a lease ago. */
  lemma ReclaimKeeps(v: Volume, r: PendingReclaim, t: Token, slot: SlotId, last: Time)
    requires Keeping(v, t, slot, last) && (Uploading(v, t) ==> v.now < last + LEASE_SECONDS)
    ensures Keeping(Reclaimed(v, r), t, slot, last)
  {
  }

  lemma HouseKeeps(v: Volume, step: HouseStep, t: Token, slot: SlotId, last: Time)
    requires Keeping(v, t, slot, last) && (Uploading(v, t) ==> v.now < last + LEASE_SECONDS)
    ensures Keeping(NextHouse(v, step), t, slot, last)
  {
    match step {
      case ReclaimUpdate(r) => ReclaimKeeps(v, r, t, slot, last);
      case FreeClear(id) => ClearKeeps(v, id, t, slot, last);
      case _ =>
        QuietHouseKeepsRows(v, step);
        QuietHouseKeepsPuts(v, step);
    }
  }

  lemma QuietHouseKeepsPuts(v: Volume, step: HouseStep)
    requires !step.ReclaimUpdate? && !step.FreeClear?
    ensures NextHouse(v, step).puts == v.puts && NextHouse(v, step).nextToken == v.nextToken
  {
  }

  lemma ClearKeeps(v: Volume, id: SlotId, t: Token, slot: SlotId, last: Time)
    requires Keeping(v, t, slot, last)
    ensures Keeping(PathCleared(v, id), t, slot, last)
  {
  }

  lemma SweepKeeps(v: Volume, w: nat, step: SweepStep, t: Token, slot: SlotId, last: Time)
    requires Keeping(v, t, slot, last)
    ensures Keeping(NextSweep(v, w, step), t, slot, last)
  {
  }

  lemma StepKeepsKeeping(s: State, step: Step, t: Token, slot: SlotId, last: Time)
    requires Keeping(s.vol, t, slot, last) && (Uploading(s.vol, t) ==> s.vol.now < last + LEASE_SECONDS)
    ensures Keeping(Next(s, step).vol, t, slot, LastSign(s, step, t, last))
  {
    match step {
      case OfPut(k, ps) => if k == t { OwnStepKeeps(s.vol, t, ps, slot, last); } else { OtherPutKeeps(s.vol, k, ps, t, slot, last); }
      case OfSend(a, ss) => SendKeeps(s, a, ss, t, slot, last);
      case OfHouse(hs) => HouseKeeps(s.vol, hs, t, slot, last);
      case OfSweep(w, ws) => SweepKeeps(s.vol, w, ws, t, slot, last);
      case _ =>
    }
  }

  lemma {:induction false} RunKeepsKeeping(s: State, steps: seq<Step>, t: Token, slot: SlotId, last: Time)
    requires Keeping(s.vol, t, slot, last) && Punctual(s, steps, t, last)
    ensures Keeping(Run(s, steps).vol, t, slot, LastSignOf(s, steps, t, last))
    decreases |steps|
  {
    if steps != [] {
      StepKeepsKeeping(s, steps[0], t, slot, last);
      RunKeepsKeeping(Next(s, steps[0]), steps[1..], t, slot, LastSign(s, steps[0], t, last));
    }
  }

  /**
   From any claim on, in every run in which the attempt claims or renews at least once per lease: for as long
   as it uploads it holds the slot, unless a sweep has deleted the row, and a reclaim could take it exactly
   from one lease after its last sign on.
   */
  lemma PunctualAttemptKeepsItsSlot(before: seq<Step>, slot: SlotId, after: seq<Step>)
    requires Matches(Run(Init, before).vol.rows, slot, Pending, None)
    requires var s := Run(Init, before); Punctual(Next(s, PutClaim(slot)), after, s.vol.nextToken, s.vol.now)
    ensures var s := Run(Init, before);
            var t, v := s.vol.nextToken, Run(Next(s, PutClaim(slot)), after).vol;
            var last := LastSignOf(Next(s, PutClaim(slot)), after, t, s.vol.now);
            && t in v.puts && v.puts[t].slot == slot
            && (Uploading(v, t) && slot in v.rows ==>
                  && Matches(v.rows, slot, Receiving, Some(t))
                  && (Lapsed(v.rows, slot, Receiving, v.now) <==> v.now >= last + LEASE_SECONDS))
  {
    var s := Run(Init, before);
    InitClaims();
    RunKeepsClaims(Init, before);
    RunKeepsKeeping(Next(s, PutClaim(slot)), after, s.vol.nextToken, slot, s.vol.now);
  }
}
