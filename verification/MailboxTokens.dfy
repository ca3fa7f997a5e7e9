/**
 A stronger property than exclusion: all leased rows of a mailbox carry one token, lapsed leases included.
 While it holds, a refresh that revives a lease does no harm.
 */
module MailboxTokens {
  import opened Common
  import opened MailboxLease
  import opened MailboxFence
  import opened MailboxExclusion

  /** All leased rows of one mailbox carry one token. */
  ghost predicate OneToken(rows: Rows) {
    forall i, j :: i in rows && j in rows && rows[i].key == rows[j].key && rows[i].token.Some? && rows[j].token.Some? ==>
      rows[i].token == rows[j].token
  }

  /** An acquisition that ends well took every leased row of its mailbox. */
  predicate TakesEveryLease(rows: Rows, a: Acquire) {
    forall id :: id in Siblings(rows, a.key) && rows[id].token.Some? ==> id in a.taken
  }

  /** A row that carries a lease to another mailbox finds no other lease there. */
  predicate MovesBesideItsOwn(rows: Rows, id: AccountId, key: Key)
    requires id in rows
  {
    forall j :: j in Siblings(rows, key) && j != id && rows[j].token.Some? ==> rows[j].token == rows[id].token
  }

  /** Just the steps that keep one token per mailbox, by what is there before them. */
  predicate Tidy(s: State, step: Step) {
    Enabled(s, step) ==>
      match step
      case AcquireEnd(t) =>
        var a := s.acquires[t];
        Complete(a) && a.count > 0 ==> TakesEveryLease(s.rows, a)
      case EditSave(e, key) =>
        var id := s.edits[e].id;
        id in s.rows ==>
          s.edits[e].sawLease || s.rows[id].token.None? || key == s.rows[id].key || MovesBesideItsOwn(s.rows, id, key)
      case _ => true
  }

  /** A successful acquisition keeps one token exactly when every leased row of the mailbox is among those it took. */
  lemma EndKeepsTokenExactly(s: State, t: Token)
    requires Inv(s) && OneToken(s.rows) && t in s.acquires && Complete(s.acquires[t]) && s.acquires[t].count > 0
    ensures OneToken(Ended(s, t).rows) <==> TakesEveryLease(s.rows, s.acquires[t])
  {
    var a := s.acquires[t];
    var rows' := Ended(s, t).rows;
    assert AcquireOk(s, t);
    var one :| one in a.taken;
    if OneToken(rows') {
      forall id | id in Siblings(s.rows, a.key) && s.rows[id].token.Some? ensures id in a.taken {
        assert RowOk(s, id);
        assert rows'[one].token == Some(t);
      }
    }
    if TakesEveryLease(s.rows, a) {
      forall i, j | i in rows' && j in rows' && rows'[i].key == rows'[j].key && rows'[i].token.Some? && rows'[j].token.Some?
        ensures rows'[i].token == rows'[j].token
      {
        assert rows'[i].key == a.key ==> i in Siblings(s.rows, a.key) && j in Siblings(s.rows, a.key);
      }
    }
  }

  lemma EndKeepsOneTokenExactly(s: State, t: Token)
    requires Inv(s) && OneToken(s.rows) && Enabled(s, AcquireEnd(t))
    ensures OneToken(Ended(s, t).rows) <==> Tidy(s, AcquireEnd(t))
  {
    var a := s.acquires[t];
    if Complete(a) {
      if a.count > 0 {
        EndKeepsTokenExactly(s, t);
      } else {
        assert a.taken == {};
        assert Ended(s, t).rows == s.rows;
      }
    }
  }

  lemma ClearKeepsOneToken(s: State, t: Token)
    requires OneToken(s.rows)
    ensures OneToken(ClearedRows(s.rows, t))
  {
  }

  lemma RefreshKeepsOneToken(s: State, r: Refresh)
    requires OneToken(s.rows)
    ensures OneToken(RefreshedRows(s.rows, r))
  {
  }

  /** An edit keeps one token exactly if it saw the lease, there is none, it stays put, or it joins its own token. */
  lemma SaveKeepsOneTokenExactly(s: State, e: Session, key: Key)
    requires OneToken(s.rows) && e in s.edits && s.edits[e].id in s.rows
    ensures var id := s.edits[e].id;
            OneToken(Saved(s, e, key).rows) <==>
              s.edits[e].sawLease || s.rows[id].token.None? || key == s.rows[id].key || MovesBesideItsOwn(s.rows, id, key)
  {
    var id, rows' := s.edits[e].id, Saved(s, e, key).rows;
    if !s.edits[e].sawLease && s.rows[id].token.Some? && key != s.rows[id].key && OneToken(rows') {
      forall j | j in Siblings(s.rows, key) && j != id && s.rows[j].token.Some? ensures s.rows[j].token == s.rows[id].token {
        assert rows'[j] == s.rows[j] && rows'[id].key == key && rows'[id].token == s.rows[id].token;
      }
    }
    if MovesBesideItsOwn(s.rows, id, key) {
      assert forall j :: j in rows' && j != id && rows'[j].key == key ==> j in Siblings(s.rows, key);
    }
  }

  /** One step keeps one token per mailbox if and only if it is tidy. */
  lemma StepKeepsOneTokenExactly(s: State, step: Step)
    requires Inv(s) && OneToken(s.rows)
    ensures OneToken(Next(s, step).rows) <==> Tidy(s, step)
  {
    if !WritesRows(step) {
      QuietStep(s, step);
    } else if Enabled(s, step) {
      match step {
        case Insert(_) =>
        case Delete(_) =>
        case EditSave(e, key) => if s.edits[e].id in s.rows { SaveKeepsOneTokenExactly(s, e, key); }
        case AcquireEnd(t) => EndKeepsOneTokenExactly(s, t);
        case RefreshLand(r) => RefreshKeepsOneToken(s, r);
        case Clear(t) => ClearKeepsOneToken(s, t);
      }
    }
  }

  ghost predicate AllTidy(s: State, steps: seq<Step>)
    decreases |steps|
  {
    steps != [] ==> Tidy(s, steps[0]) && AllTidy(Next(s, steps[0]), steps[1..])
  }

  ghost predicate OneTokenThroughout(s: State, steps: seq<Step>)
    decreases |steps|
  {
    OneToken(s.rows) && (steps != [] ==> OneTokenThroughout(Next(s, steps[0]), steps[1..]))
  }

  /** Over a whole run, every mailbox keeps one token throughout if and only if every step is tidy. */
  lemma {:induction false} OneTokenExactly(s: State, steps: seq<Step>)
    requires Inv(s) && OneToken(s.rows)
    ensures OneTokenThroughout(s, steps) <==> AllTidy(s, steps)
    decreases |steps|
  {
    if steps != [] {
      StepKeepsInv(s, steps[0]);
      StepKeepsOneTokenExactly(s, steps[0]);
      if Tidy(s, steps[0]) {
        OneTokenExactly(Next(s, steps[0]), steps[1..]);
      }
    }
  }

  /** So in such a run exclusion holds throughout, whatever refreshes revive. */
  lemma {:induction false} TidyRunsAreExclusive(s: State, steps: seq<Step>)
    requires Inv(s) && OneToken(s.rows) && AllTidy(s, steps)
    ensures ExclusiveThroughout(s, steps)
    decreases |steps|
  {
    OneTokenIsExclusive(s);
    if steps != [] {
      StepKeepsInv(s, steps[0]);
      StepKeepsOneTokenExactly(s, steps[0]);
      TidyRunsAreExclusive(Next(s, steps[0]), steps[1..]);
    }
  }

  lemma OneTokenIsExclusive(s: State)
    requires Inv(s) && OneToken(s.rows)
    ensures Exclusive(s)
  {
    forall i, j | LiveNow(s, i) && LiveNow(s, j) && s.rows[i].key == s.rows[j].key ensures s.rows[i].token == s.rows[j].token {
      assert RowOk(s, i) && RowOk(s, j);
    }
  }
}
