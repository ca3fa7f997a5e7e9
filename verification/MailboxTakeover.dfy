/**
 What an acquisition comes to that nobody disturbs: the whole mailbox, if every row of it is free or its lease
 has run out, and nothing otherwise.
 */
module MailboxTakeover {
  import opened Common
  import opened MailboxLease
  import opened MailboxFence

  function MailboxOf(rows: Rows, key: Key): Rows {
    map id | id in rows && rows[id].key == key :: rows[id]
  }

  /** Nothing keeps a row from being leased at this time: no expiry, or one that has passed. */
  predicate Free(a: Account, now: Time) { a.expires.None? || a.expires.value < now }

  function FreeIds(box: Rows, now: Time): set<AccountId> {
    set id | id in box && Free(box[id], now)
  }

  predicate AllFree(box: Rows, now: Time) {
    forall id :: id in box ==> Free(box[id], now)
  }

  /** Nobody else has locked a row of the mailbox. */
  predicate LeftTo(s: State, key: Key, t: Token) {
    forall id :: id in s.rows && s.rows[id].key == key && id in s.locks ==> s.locks[id] == ByAcquire(t)
  }

  /** Steps during which no row of the mailbox is written, added, moved, removed or locked by anyone else, and the acquisition goes on. */
  ghost predicate Undisturbed(s: State, steps: seq<Step>, key: Key, t: Token)
    decreases |steps|
  {
    && LeftTo(s, key, t)
    && (steps != [] ==>
          && steps[0] != AcquireEnd(t) && steps[0] != AcquireAbort(t)
          && MailboxOf(Next(s, steps[0]).rows, key) == MailboxOf(s.rows, key)
          && Undisturbed(Next(s, steps[0]), steps[1..], key, t))
  }

  /** An acquisition of this mailbox that has counted it, and visits just its free rows. */
  predicate Taking(s: State, box: Rows, key: Key, t: Token, started: Time, seconds: int) {
    && t < s.nextToken && t in s.acquires && MailboxOf(s.rows, key) == box
    && var a := s.acquires[t];
       && a.key == key && a.started == started && a.seconds == seconds && a.count == |box.Keys|
       && (if a.scanned then a.left + a.taken == FreeIds(box, started) else a.left == a.taken == {})
  }

  lemma OthersLeaveAcquire(s: State, step: Step, t: Token)
    requires t in s.acquires && t < s.nextToken
    requires step != AcquireScan(t) && step != AcquireEnd(t) && step != AcquireAbort(t) && !(step.AcquireTake? && step.t == t)
    ensures var s' := Next(s, step); s'.nextToken >= s.nextToken && t in s'.acquires && s'.acquires[t] == s.acquires[t]
  {
  }

  lemma ScanFindsTheFree(s: State, box: Rows, key: Key, t: Token, started: Time, seconds: int)
    requires Taking(s, box, key, t, started, seconds)
    ensures Taking(Next(s, AcquireScan(t)), box, key, t, started, seconds)
  {
    var a := s.acquires[t];
    var s' := Next(s, AcquireScan(t));
    if !a.scanned {
      forall id ensures id in s'.acquires[t].left <==> id in FreeIds(box, started) {
        assert id in box <==> id in s.rows && s.rows[id].key == key;
      }
    }
  }

  lemma TakeKeepsTaking(s: State, box: Rows, key: Key, t: Token, started: Time, seconds: int, id: AccountId)
    requires Taking(s, box, key, t, started, seconds)
    ensures Taking(Next(s, AcquireTake(t, id)), box, key, t, started, seconds)
    ensures Enabled(s, AcquireTake(t, id)) ==> Next(s, AcquireTake(t, id)).acquires[t].left == s.acquires[t].left - {id}
    ensures var s' := Next(s, AcquireTake(t, id));
            s'.rows == s.rows && (s'.locks == s.locks || s'.locks == s.locks[id := ByAcquire(t)])
            && s'.acquires[t].scanned == s.acquires[t].scanned
  {
    var a, s' := s.acquires[t], Next(s, AcquireTake(t, id));
    if Enabled(s, AcquireTake(t, id)) {
      assert a.scanned && id in FreeIds(box, started);
      assert id in s.rows && s.rows[id] == box[id];
      assert (a.left - {id}) + (a.taken + {id}) == a.left + a.taken;
    }
  }

  lemma StepKeepsTaking(s: State, step: Step, box: Rows, key: Key, t: Token, started: Time, seconds: int)
    requires Taking(s, box, key, t, started, seconds) && step != AcquireEnd(t) && step != AcquireAbort(t)
    requires MailboxOf(Next(s, step).rows, key) == MailboxOf(s.rows, key)
    ensures Taking(Next(s, step), box, key, t, started, seconds)
  {
    if step == AcquireScan(t) {
      ScanFindsTheFree(s, box, key, t, started, seconds);
    } else if step.AcquireTake? && step.t == t {
      TakeKeepsTaking(s, box, key, t, started, seconds, step.id);
    } else {
      OthersLeaveAcquire(s, step, t);
    }
  }

  lemma {:induction false} RunKeepsTaking(s: State, steps: seq<Step>, box: Rows, key: Key, t: Token, started: Time, seconds: int)
    requires Taking(s, box, key, t, started, seconds) && Undisturbed(s, steps, key, t)
    ensures Taking(Run(s, steps), box, key, t, started, seconds)
    decreases |steps|
  {
    if steps != [] {
      StepKeepsTaking(s, steps[0], box, key, t, started, seconds);
      RunKeepsTaking(Next(s, steps[0]), steps[1..], box, key, t, started, seconds);
    }
  }

  /** The mailbox as the acquisition leaves it. */
  function TakenBox(box: Rows, t: Token, started: Time, seconds: int): Rows {
    if AllFree(box, started) then map id | id in box :: Account(box[id].key, Some(t), Some(started), Some(started + seconds)) else box
  }

  /** All of a mailbox or nothing: every row is under the token exactly if every row was free. */
  predicate AllOrNothing(box: Rows, box': Rows, t: Token, now: Time, seconds: int) {
    && box'.Keys == box.Keys
    && ((forall id :: id in box ==> box'[id].token == Some(t)) <==> AllFree(box, now))
    && (if AllFree(box, now)
        then forall id :: id in box ==> box'[id].lockedAt == Some(now) && box'[id].expires == Some(now + seconds)
        else box' == box)
  }

  lemma TakenMeans(box: Rows, t: Token, started: Time, seconds: int)
    requires forall id :: id in box ==> box[id].token != Some(t)
    ensures AllOrNothing(box, TakenBox(box, t, started, seconds), t, started, seconds)
  {
  }

  lemma EndTakesAllOrNothing(s: State, box: Rows, key: Key, t: Token, started: Time, seconds: int)
    requires Taking(s, box, key, t, started, seconds) && Enabled(s, AcquireEnd(t))
    ensures MailboxOf(Next(s, AcquireEnd(t)).rows, key) == TakenBox(box, t, started, seconds)
  {
    var a := s.acquires[t];
    assert a.taken == FreeIds(box, started) <= box.Keys;
    if AllFree(box, started) {
      assert a.taken == box.Keys;
      forall id | id in box ensures id in s.rows && s.rows[id] == box[id] && box[id].key == key {
        assert id in MailboxOf(s.rows, key);
      }
    } else {
      SubsetSize(a.taken, box.Keys);
    }
  }

  lemma CountBegins(s: State, key: Key, seconds: int)
    requires seconds > 0
    ensures Taking(Next(s, AcquireCount(key, seconds)), MailboxOf(s.rows, key), key, s.nextToken, s.now, Min(seconds, JOB_CAP))
  {
    assert Siblings(s.rows, key) == MailboxOf(s.rows, key).Keys;
  }

  /** A whole acquisition: the count, what happens until its UPDATE is through, and the end. */
  function Acquired(s: State, key: Key, seconds: int, during: seq<Step>): State {
    Next(Run(Next(s, AcquireCount(key, seconds)), during), AcquireEnd(s.nextToken))
  }

  /** Nobody disturbs it, and its UPDATE does get through. */
  ghost predicate GoesThrough(s: State, key: Key, seconds: int, during: seq<Step>) {
    && Undisturbed(Next(s, AcquireCount(key, seconds)), during, key, s.nextToken)
    && Enabled(Run(Next(s, AcquireCount(key, seconds)), during), AcquireEnd(s.nextToken))
  }

  lemma AcquiredBox(s: State, key: Key, seconds: int, during: seq<Step>)
    requires seconds > 0 && GoesThrough(s, key, seconds, during)
    ensures MailboxOf(Acquired(s, key, seconds, during).rows, key)
            == TakenBox(MailboxOf(s.rows, key), s.nextToken, s.now, Min(seconds, JOB_CAP))
  {
    var t, box, counted := s.nextToken, MailboxOf(s.rows, key), Next(s, AcquireCount(key, seconds));
    CountBegins(s, key, seconds);
    RunKeepsTaking(counted, during, box, key, t, s.now, Min(seconds, JOB_CAP));
    EndTakesAllOrNothing(Run(counted, during), box, key, t, s.now, Min(seconds, JOB_CAP));
  }

  /**
   An acquisition nobody disturbs ends with every row of the mailbox under its token, for the time asked up to
   the cap, if and only if each of them had no expiry or one before its clock reading; otherwise the mailbox is as it was.
   */
  lemma TakenOverExactly(before: seq<Step>, key: Key, seconds: int, during: seq<Step>)
    requires seconds > 0 && GoesThrough(Run(Init, before), key, seconds, during)
    ensures var s := Run(Init, before);
            AllOrNothing(MailboxOf(s.rows, key), MailboxOf(Acquired(s, key, seconds, during).rows, key), s.nextToken, s.now, Min(seconds, JOB_CAP))
  {
    var s := Run(Init, before);
    Reachable(before);
    AcquiredBox(s, key, seconds, during);
    forall id | id in MailboxOf(s.rows, key) ensures s.rows[id].token != Some(s.nextToken) { assert RowOk(s, id); }
    TakenMeans(MailboxOf(s.rows, key), s.nextToken, s.now, Min(seconds, JOB_CAP));
  }

  // ---- such runs exist ------------------------------------------------------------------------

  function Takes(t: Token, ids: seq<AccountId>): seq<Step>
    decreases |ids|
  {
    if ids == [] then [] else [AcquireTake(t, ids[0])] + Takes(t, ids[1..])
  }

  /** What is left of the UPDATE is among these rows, and nobody has locked it. */
  predicate ToVisit(s: State, key: Key, t: Token, ids: seq<AccountId>)
    requires t in s.acquires
  {
    s.acquires[t].scanned && LeftTo(s, key, t) && forall id :: id in s.acquires[t].left ==> id in ids && id !in s.locks
  }

  lemma OneTake(s: State, ids: seq<AccountId>, box: Rows, key: Key, t: Token, started: Time, seconds: int)
    requires Taking(s, box, key, t, started, seconds) && ToVisit(s, key, t, ids) && ids != []
    ensures var s' := Next(s, AcquireTake(t, ids[0]));
            s'.rows == s.rows && Taking(s', box, key, t, started, seconds) && ToVisit(s', key, t, ids[1..])
  {
    var s' := Next(s, AcquireTake(t, ids[0]));
    TakeKeepsTaking(s, box, key, t, started, seconds, ids[0]);
    forall k | k in s'.acquires[t].left ensures k in ids[1..] && k !in s'.locks {
      assert k in s.acquires[t].left && k != ids[0];
    }
  }

  /** Visiting the free rows one by one disturbs nothing and leaves none. */
  lemma {:induction false} TakesGoThrough(s: State, ids: seq<AccountId>, box: Rows, key: Key, t: Token, started: Time, seconds: int)
    requires Taking(s, box, key, t, started, seconds) && ToVisit(s, key, t, ids)
    ensures Undisturbed(s, Takes(t, ids), key, t) && Enabled(Run(s, Takes(t, ids)), AcquireEnd(t))
    decreases |ids|
  {
    if ids != [] {
      OneTake(s, ids, box, key, t, started, seconds);
      TakesGoThrough(Next(s, AcquireTake(t, ids[0])), ids[1..], box, key, t, started, seconds);
      assert Takes(t, ids)[1..] == Takes(t, ids[1..]);
    }
  }

  lemma ScanGoesOn(s: State, box: Rows, key: Key, t: Token, started: Time, seconds: int, ids: seq<AccountId>)
    requires Taking(s, box, key, t, started, seconds) && !s.acquires[t].scanned
    requires forall id :: id in box ==> id in ids && id !in s.locks
    ensures var s' := Next(s, AcquireScan(t)); s'.rows == s.rows && LeftTo(s, key, t) && ToVisit(s', key, t, ids)
  {
    ScanFindsTheFree(s, box, key, t, started, seconds);
    assert forall id :: id in s.rows && s.rows[id].key == key <==> id in box;
  }

  /** On a mailbox nobody has locked, such an acquisition runs to its end. */
  lemma AnUndisturbedAcquisition(s: State, key: Key, seconds: int, ids: seq<AccountId>)
    requires seconds > 0 && forall id :: id in s.rows && s.rows[id].key == key ==> id in ids && id !in s.locks
    ensures GoesThrough(s, key, seconds, [AcquireScan(s.nextToken)] + Takes(s.nextToken, ids))
  {
    var t, box, counted, cap := s.nextToken, MailboxOf(s.rows, key), Next(s, AcquireCount(key, seconds)), Min(seconds, JOB_CAP);
    CountBegins(s, key, seconds);
    ScanGoesOn(counted, box, key, t, s.now, cap, ids);
    ScanFindsTheFree(counted, box, key, t, s.now, cap);
    TakesGoThrough(Next(counted, AcquireScan(t)), ids, box, key, t, s.now, cap);
    assert ([AcquireScan(t)] + Takes(t, ids))[1..] == Takes(t, ids);
  }

  // ---- what an acquisition never takes --------------------------------------------------------

  /** The rows an acquisition has locked so far were free at its clock reading, and still are. */
  predicate TookFree(s: State, t: Token)
    requires t in s.acquires
  {
    s.acquires[t].started <= s.now && forall id :: id in s.acquires[t].taken ==> id in s.rows && Free(s.rows[id], s.acquires[t].started)
  }

  ghost predicate AllTookFree(s: State) { forall t :: t in s.acquires ==> TookFree(s, t) }

  lemma LockedRowsAreSpared(s: State, step: Step, id: AccountId)
    requires id in s.locks && id in s.rows && (step.EditSave? || step.Delete? || step.RefreshLand? || step.Clear?)
    ensures id in Next(s, step).rows && Next(s, step).rows[id] == s.rows[id]
  {
  }

  /** A row an acquisition has locked is written by nobody else. */
  lemma LockedRowStays(s: State, step: Step, t: Token, id: AccountId)
    requires LeaseInv(s) && t in s.acquires && id in s.acquires[t].taken && step != AcquireEnd(t)
    ensures id in Next(s, step).rows && Next(s, step).rows[id] == s.rows[id]
  {
    assert AcquireOk(s, t);
    if !WritesRows(step) {
      QuietStep(s, step);
    } else if step.AcquireEnd? && step.t in s.acquires {
      assert AcquireOk(s, step.t);
    } else if step.Insert? {
      assert RowOk(s, id);
    } else if !step.AcquireEnd? {
      LockedRowsAreSpared(s, step, id);
    }
  }

  lemma TakeIsFree(s: State, t: Token, id: AccountId)
    requires t in s.acquires && TookFree(s, t)
    ensures t in Next(s, AcquireTake(t, id)).acquires && TookFree(Next(s, AcquireTake(t, id)), t)
  {
  }

  lemma TimeGoesOn(s: State, step: Step)
    ensures Next(s, step).now >= s.now
  {
  }

  lemma OnlyCountBegins(s: State, step: Step, t: Token)
    requires t !in s.acquires && t in Next(s, step).acquires
    ensures TookFree(Next(s, step), t)
  {
  }

  lemma ScanTakesNothing(s: State, t: Token)
    requires t in s.acquires && TookFree(s, t)
    ensures t in Next(s, AcquireScan(t)).acquires && TookFree(Next(s, AcquireScan(t)), t)
  {
  }

  lemma StepTakesFree(s: State, step: Step)
    requires LeaseInv(s) && AllTookFree(s)
    ensures AllTookFree(Next(s, step))
  {
    var s' := Next(s, step);
    forall t | t in s'.acquires ensures TookFree(s', t) {
      if t !in s.acquires {
        OnlyCountBegins(s, step, t);
      } else if step == AcquireScan(t) {
        ScanTakesNothing(s, t);
      } else if step.AcquireTake? && step.t == t {
        TakeIsFree(s, t, step.id);
      } else if step != AcquireEnd(t) && step != AcquireAbort(t) {
        StillTookFree(s, step, t);
      } else {
        EndedStaysOut(s, step, t);
      }
    }
  }

  lemma EndedStaysOut(s: State, step: Step, t: Token)
    requires t in s.acquires && (step == AcquireEnd(t) || step == AcquireAbort(t)) && TookFree(s, t) && t in Next(s, step).acquires
    ensures TookFree(Next(s, step), t)
  {
  }

  lemma StillTookFree(s: State, step: Step, t: Token)
    requires LeaseInv(s) && t in s.acquires && TookFree(s, t)
    requires step != AcquireScan(t) && step != AcquireEnd(t) && step != AcquireAbort(t) && !(step.AcquireTake? && step.t == t)
    ensures t in Next(s, step).acquires && TookFree(Next(s, step), t)
  {
    assert AcquireOk(s, t);
    OthersLeaveAcquire(s, step, t);
    TimeGoesOn(s, step);
    forall id | id in s.acquires[t].taken ensures id in Next(s, step).rows && Next(s, step).rows[id] == s.rows[id] {
      LockedRowStays(s, step, t, id);
    }
  }

  lemma {:induction false} RunTakesFree(s: State, steps: seq<Step>)
    requires Inv(s) && AllTookFree(s)
    ensures AllTookFree(Run(s, steps))
    decreases |steps|
  {
    if steps != [] {
      StepKeepsInv(s, steps[0]);
      StepTakesFree(s, steps[0]);
      RunTakesFree(Next(s, steps[0]), steps[1..]);
    }
  }

  /**
   In every run, whatever happens between its count, its scan and its end, an acquisition changes only rows of
   its mailbox that had no expiry, or one before the clock reading it began with: a live lease is never taken over.
   */
  lemma LiveLeasesAreSpared(steps: seq<Step>, t: Token, id: AccountId)
    requires var s := Run(Init, steps); Enabled(s, AcquireEnd(t)) && id in s.rows
    ensures var s, s' := Run(Init, steps), Next(Run(Init, steps), AcquireEnd(t));
            && id in s'.rows
            && (s'.rows[id] != s.rows[id] ==>
                  && s.rows[id].key == s.acquires[t].key && s.acquires[t].started <= s.now
                  && (s.rows[id].expires.None? || s.rows[id].expires.value < s.acquires[t].started))
  {
    var s := Run(Init, steps);
    Reachable(steps);
    Reachable([]);
    RunTakesFree(Init, steps);
    assert AcquireOk(s, t) && TookFree(s, t);
  }

  /** Every row visited is done with, taken or not, so an UPDATE whose rows are not locked for ever comes to its end. */
  lemma EveryVisitCounts(s: State, t: Token, id: AccountId)
    requires Enabled(s, AcquireTake(t, id))
    ensures var s' := Next(s, AcquireTake(t, id)); t in s'.acquires && s'.acquires[t].left == s.acquires[t].left - {id}
  {
  }

  /** No time asked for, no lease. */
  lemma NoTimeNoLease(s: State, key: Key, seconds: int)
    requires seconds <= 0
    ensures Next(s, AcquireCount(key, seconds)) == s
  {
  }

  /** In time: the lease was still running when the refresh read the clock. */
  predicate StillRunning(a: Account, asked: Time) {
    a.lockedAt.Some? && a.expires.Some? && asked < a.expires.value && asked < a.lockedAt.value + JOB_CAP
  }

  /**
   A refresh extends every row of its lease, as far as the cap, if all of them were still running when it read
   the clock, and none otherwise; it touches no other row.
   */
  lemma RefreshedInTimeExactly(s: State, r: Refresh, id: AccountId)
    requires Enabled(s, RefreshLand(r)) && id in s.rows
    ensures var rows' := Next(s, RefreshLand(r)).rows;
            id in rows' && rows'[id] ==
              if s.rows[id].token == Some(r.token) && forall k :: k in s.rows && s.rows[k].token == Some(r.token) ==> StillRunning(s.rows[k], r.asked)
              then s.rows[id].(expires := Some(if r.asked + r.seconds < s.rows[id].lockedAt.value + JOB_CAP then r.asked + r.seconds
                                               else s.rows[id].lockedAt.value + JOB_CAP))
              else s.rows[id]
    ensures !Enabled(Next(s, RefreshLand(r)), RefreshLand(r))
  {
    assert forall k :: k in s.rows && s.rows[k].token == Some(r.token) ==> (StillRunning(s.rows[k], r.asked) <==> MayRefresh(s.rows[k], r));
  }

  /**
   An edit, from load to save with anything in between: it moves its row if that is still there, ends the
   row's lease exactly if it had loaded one, touches no other row, and saves once.
   */
  lemma EditedExactly(s: State, s1: State, e: Session, id: AccountId, key: Key, other: AccountId)
    requires Enabled(s, EditLoad(e, id)) && e in s1.edits && s1.edits[e] == Next(s, EditLoad(e, id)).edits[e]
    requires Enabled(s1, EditSave(e, key))
    ensures var rows' := Next(s1, EditSave(e, key)).rows;
            && rows'.Keys == s1.rows.Keys
            && (other != id && other in s1.rows ==> rows'[other] == s1.rows[other])
            && (id in s1.rows ==> rows'[id] == if s.rows[id].token.Some? then Account(key, None, None, None) else s1.rows[id].(key := key))
    ensures !Enabled(Next(s1, EditSave(e, key)), EditSave(e, key))
  {
  }

  lemma StepLeavesDeleted(s: State, step: Step, id: AccountId)
    requires id < s.nextId && id !in s.rows
    ensures var s' := Next(s, step); id < s'.nextId && id !in s'.rows
  {
  }

  /** A deleted row is gone, and in no continuation does a row of its id come back. */
  lemma {:induction false} DeletedForGood(s: State, id: AccountId, after: seq<Step>)
    requires Enabled(s, Delete(id)) && id < s.nextId
    ensures var s1 := Next(s, Delete(id));
            && s1.rows == s.rows - {id} && s1.nextId == s.nextId && id !in Run(s1, after).rows
  {
    StaysDeleted(Next(s, Delete(id)), id, after);
  }

  lemma {:induction false} StaysDeleted(s: State, id: AccountId, steps: seq<Step>)
    requires id < s.nextId && id !in s.rows
    ensures id !in Run(s, steps).rows
    decreases |steps|
  {
    if steps != [] {
      StepLeavesDeleted(s, steps[0], id);
      StaysDeleted(Next(s, steps[0]), id, steps[1..]);
    }
  }
}
