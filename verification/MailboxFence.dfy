/**
 What the fence keeps over every run: commits on an account row are grouped by lease, a lost lease never
 commits again, and every commit had a live lease at both checks.
 */
module MailboxFence {
  import opened Common
  import opened MailboxLease

  // ---- the invariant ------------------------------------------------------------------------

  predicate RowShape(a: Account) {
    && (a.token.Some? <==> a.lockedAt.Some?) && (a.token.Some? <==> a.expires.Some?)
    && (a.token.Some? ==> a.expires.value <= a.lockedAt.value + JOB_CAP)
  }

  predicate RowOk(s: State, id: AccountId)
    requires id in s.rows
  {
    var a := s.rows[id];
    && id < s.nextId && RowShape(a)
    && (a.token.Some? ==> a.token.value < s.nextToken && a.token.value !in s.acquires && (id, a.token.value) !in s.past)
  }

  predicate AcquireOk(s: State, t: Token)
    requires t in s.acquires
  {
    var a := s.acquires[t];
    && t < s.nextToken && a.seconds <= JOB_CAP
    && (forall id :: id in a.taken ==> id in s.rows && s.rows[id].key == a.key && id in s.locks && s.locks[id] == ByAcquire(t))
  }

  predicate TxnOk(s: State, x: Session)
    requires x in s.txns
  {
    var tx := s.txns[x];
    && tx.began <= s.now
    && (tx.phase != Asked ==> tx.id in s.rows && s.rows[tx.id].token == Some(tx.token)
                              && tx.id in s.locks && s.locks[tx.id] == ByTxn(x) && tx.began < tx.beganUntil)
    && (tx.phase == Validated ==> LiveAtBothChecks(tx))
  }

  /** What the two checks of one transaction saw. */
  predicate LiveAtBothChecks(tx: Txn) {
    tx.began < tx.beganUntil && tx.began <= tx.validated < tx.validatedUntil && tx.uptime < tx.deadline
  }

  predicate LockOk(s: State, id: AccountId)
    requires id in s.locks
  {
    match s.locks[id]
    case ByTxn(x) => x in s.txns && s.txns[x].phase != Asked && s.txns[x].id == id
    case ByAcquire(t) => t in s.acquires && id in s.acquires[t].taken
  }

  predicate PastOk(s: State, p: (AccountId, Token)) {
    && p.0 < s.nextId && p.1 < s.nextToken && p.1 !in s.acquires
    && (p.0 in s.rows ==> s.rows[p.0].token != Some(p.1))
  }

  /** Whoever committed on a row holds it still, or held it once. */
  predicate EntryOk(s: State, e: Txn) {
    && LiveAtBothChecks(e)
    && ((e.id, e.token) in s.past || (e.id in s.rows && s.rows[e.id].token == Some(e.token)))
  }

  /** Of two commits on a row under different leases, the earlier one's lease is over. */
  ghost predicate Superseded(s: State) {
    forall i, j :: 0 <= i < j < |s.log| && s.log[i].id == s.log[j].id && s.log[i].token != s.log[j].token ==>
      (s.log[i].id, s.log[i].token) in s.past
  }

  /** Between two commits on a row under one lease there is none under another. */
  ghost predicate Grouped(log: seq<Txn>) {
    forall i, j, k :: 0 <= i < j < k < |log| && log[i].id == log[j].id == log[k].id && log[i].token == log[k].token ==>
      log[j].token == log[i].token
  }

  ghost predicate LeaseInv(s: State) {
    && (forall id :: id in s.rows ==> RowOk(s, id))
    && (forall t :: t in s.acquires ==> AcquireOk(s, t))
    && (forall x :: x in s.txns ==> TxnOk(s, x))
    && (forall id :: id in s.locks ==> LockOk(s, id))
  }

  ghost predicate HistoryInv(s: State) {
    && (forall p :: p in s.past ==> PastOk(s, p))
    && (forall i :: 0 <= i < |s.log| ==> EntryOk(s, s.log[i]))
    && Superseded(s) && Grouped(s.log)
  }

  ghost predicate Inv(s: State) { LeaseInv(s) && HistoryInv(s) }

  // ---- rows change --------------------------------------------------------------------------

  /** A row left alone, one released, or one given a token nobody has had. */
  predicate MayBecome(s: State, id: AccountId, a: Account)
    requires id in s.rows
  {
    var was := s.rows[id];
    && RowShape(a)
    && (a.token == was.token || a.token.None?
        || (a.token.value < s.nextToken && a.token.value !in s.acquires && (id, a.token.value) !in s.past))
    && (id in s.locks ==> a == was)
  }

  ghost predicate RowsMayBecome(s: State, rows': Rows) {
    && rows'.Keys <= s.rows.Keys && s.rows.Keys * s.locks.Keys <= rows'.Keys
    && (forall id :: id in rows' ==> MayBecome(s, id, rows'[id]))
  }

  lemma RowsKeepLeases(s: State, rows': Rows)
    requires Inv(s) && RowsMayBecome(s, rows')
    ensures LeaseInv(WithRows(s, rows'))
  {
    var s' := WithRows(s, rows');
    forall id | id in s'.rows ensures RowOk(s', id) {
      assert RowOk(s, id) && MayBecome(s, id, rows'[id]);
    }
    forall t | t in s'.acquires ensures AcquireOk(s', t) {
      assert AcquireOk(s, t);
      forall id | id in s.acquires[t].taken ensures id in rows' && rows'[id] == s.rows[id] {
        assert id in s.rows.Keys * s.locks.Keys;
        assert MayBecome(s, id, rows'[id]);
      }
    }
    forall x | x in s'.txns ensures TxnOk(s', x) {
      assert TxnOk(s, x);
      var id := s.txns[x].id;
      if s.txns[x].phase != Asked {
        assert id in s.rows.Keys * s.locks.Keys;
        assert MayBecome(s, id, rows'[id]);
      }
    }
    forall id | id in s'.locks ensures LockOk(s', id) {
      assert LockOk(s, id);
    }
  }

  lemma RowsKeepHistory(s: State, rows': Rows)
    requires Inv(s) && RowsMayBecome(s, rows')
    ensures HistoryInv(WithRows(s, rows'))
  {
    var s' := WithRows(s, rows');
    forall p | p in s'.past ensures PastOk(s', p) {
      if p in s.past {
        assert PastOk(s, p);
        assert p.0 in rows' ==> MayBecome(s, p.0, rows'[p.0]);
      } else {
        assert RowOk(s, p.0);
      }
    }
    forall i | 0 <= i < |s'.log| ensures EntryOk(s', s'.log[i]) {
      assert EntryOk(s, s.log[i]);
    }
  }

  lemma RowsKeepInv(s: State, rows': Rows)
    requires Inv(s) && RowsMayBecome(s, rows')
    ensures Inv(WithRows(s, rows'))
  {
    RowsKeepLeases(s, rows');
    RowsKeepHistory(s, rows');
  }

  // ---- each step ----------------------------------------------------------------------------

  lemma InsertKeeps(s: State, key: Key)
    requires Inv(s)
    ensures Inv(s.(rows := s.rows[s.nextId := Account(key, None, None, None)], nextId := s.nextId + 1))
  {
    var s' := s.(rows := s.rows[s.nextId := Account(key, None, None, None)], nextId := s.nextId + 1);
    assert s.nextId in s.rows ==> RowOk(s, s.nextId);
    forall id | id in s'.rows ensures RowOk(s', id) { assert id != s.nextId ==> RowOk(s, id); }
    forall t | t in s'.acquires ensures AcquireOk(s', t) { assert AcquireOk(s, t); }
    forall x | x in s'.txns ensures TxnOk(s', x) { assert TxnOk(s, x); }
    forall id | id in s'.locks ensures LockOk(s', id) { assert LockOk(s, id); }
    forall p | p in s'.past ensures PastOk(s', p) { assert PastOk(s, p); }
    forall i | 0 <= i < |s'.log| ensures EntryOk(s', s'.log[i]) { assert EntryOk(s, s.log[i]); }
  }

  lemma EditKeeps(s: State, e: Session, key: Key)
    requires Inv(s) && e in s.edits && Unlocked(s, {s.edits[e].id})
    ensures Inv(Saved(s, e, key))
  {
    var d := s.edits[e];
    var s1 := s.(edits := s.edits - {e});
    assert Inv(s1) by { SameButSide(s, s1); }
    if d.id in s.rows {
      var rows' := s.rows[d.id := Edited(s.rows[d.id], key, d.sawLease)];
      forall id | id in rows' ensures MayBecome(s1, id, rows'[id]) { assert RowOk(s1, id); }
      assert d.id in {d.id};
      RowsKeepInv(s1, rows');
    }
  }

  /** Edits, refreshes and the clocks are not part of what the invariant speaks of. */
  lemma SameButSide(s: State, s': State)
    requires Inv(s) && s.now <= s'.now
    requires s' == s.(now := s'.now, uptime := s'.uptime, edits := s'.edits, refreshes := s'.refreshes)
    ensures Inv(s')
  {
    forall id | id in s'.rows ensures RowOk(s', id) { assert RowOk(s, id); }
    forall t | t in s'.acquires ensures AcquireOk(s', t) { assert AcquireOk(s, t); }
    forall x | x in s'.txns ensures TxnOk(s', x) { assert TxnOk(s, x); }
    forall id | id in s'.locks ensures LockOk(s', id) { assert LockOk(s, id); }
    forall p | p in s'.past ensures PastOk(s', p) { assert PastOk(s, p); }
    forall i | 0 <= i < |s'.log| ensures EntryOk(s', s'.log[i]) { assert EntryOk(s, s.log[i]); }
  }

  lemma DeleteKeeps(s: State, id: AccountId)
    requires Inv(s) && id in s.rows && Unlocked(s, {id})
    ensures Inv(WithRows(s, s.rows - {id}))
  {
    assert id in {id};
    forall k | k in s.rows - {id} ensures MayBecome(s, k, (s.rows - {id})[k]) { assert RowOk(s, k); }
    RowsKeepInv(s, s.rows - {id});
  }

  lemma ClearKeeps(s: State, t: Token)
    requires Inv(s) && Unlocked(s, HeldBy(s.rows, t))
    ensures Inv(WithRows(s, ClearedRows(s.rows, t)))
  {
    var rows' := ClearedRows(s.rows, t);
    forall id | id in rows' ensures MayBecome(s, id, rows'[id]) {
      assert RowOk(s, id);
      assert id in HeldBy(s.rows, t) <==> s.rows[id].token == Some(t);
    }
    RowsKeepInv(s, rows');
  }

  lemma RefreshKeeps(s: State, r: Refresh)
    requires Inv(s) && Unlocked(s, HeldBy(s.rows, r.token))
    ensures Inv(WithRows(s.(refreshes := s.refreshes - {r}), RefreshedRows(s.rows, r)))
  {
    var s1 := s.(refreshes := s.refreshes - {r});
    SameButSide(s, s1);
    var rows' := RefreshedRows(s.rows, r);
    forall id | id in rows' ensures MayBecome(s1, id, rows'[id]) {
      assert RowOk(s, id);
      assert id in HeldBy(s.rows, r.token) <==> s.rows[id].token == Some(r.token);
    }
    RowsKeepInv(s1, rows');
  }

  lemma CountKeepsLeases(s: State, key: Key, seconds: int)
    requires Inv(s) && Min(seconds, JOB_CAP) > 0
    ensures LeaseInv(Counted(s, key, seconds))
  {
    var s' := Counted(s, key, seconds);
    forall id | id in s'.rows ensures RowOk(s', id) { assert RowOk(s, id); }
    forall t | t in s'.acquires ensures AcquireOk(s', t) { assert t in s.acquires ==> AcquireOk(s, t); }
    forall x | x in s'.txns ensures TxnOk(s', x) { assert TxnOk(s, x); }
    assert s.nextToken !in s.acquires by { assert s.nextToken in s.acquires ==> AcquireOk(s, s.nextToken); }
    forall id | id in s'.locks ensures LockOk(s', id) { assert LockOk(s, id); }
  }

  lemma CountKeepsHistory(s: State, key: Key, seconds: int)
    requires Inv(s) && Min(seconds, JOB_CAP) > 0
    ensures HistoryInv(Counted(s, key, seconds))
  {
    var s' := Counted(s, key, seconds);
    forall p | p in s'.past ensures PastOk(s', p) { assert PastOk(s, p); }
    forall i | 0 <= i < |s'.log| ensures EntryOk(s', s'.log[i]) { assert EntryOk(s, s.log[i]); }
  }

  lemma CountKeeps(s: State, key: Key, seconds: int)
    requires Inv(s)
    ensures Inv(Counted(s, key, seconds))
  {
    if Min(seconds, JOB_CAP) > 0 {
      CountKeepsLeases(s, key, seconds);
      CountKeepsHistory(s, key, seconds);
    }
  }

  /** Steps that leave rows and history alone keep the history part. */
  lemma SameHistory(s: State, s': State)
    requires HistoryInv(s) && s'.rows == s.rows && s'.log == s.log && s'.past == s.past
    requires s'.nextId == s.nextId && s'.nextToken == s.nextToken && s'.acquires.Keys <= s.acquires.Keys
    ensures HistoryInv(s')
  {
    forall p | p in s'.past ensures PastOk(s', p) { assert PastOk(s, p); }
    forall i | 0 <= i < |s'.log| ensures EntryOk(s', s'.log[i]) { assert EntryOk(s, s.log[i]); }
  }

  lemma ScanKeeps(s: State, t: Token)
    requires Inv(s) && t in s.acquires
    ensures Inv(Scanned(s, t))
  {
    var s' := Scanned(s, t);
    forall id | id in s'.rows ensures RowOk(s', id) { assert RowOk(s, id); }
    forall k | k in s'.acquires ensures AcquireOk(s', k) { assert AcquireOk(s, k); }
    forall x | x in s'.txns ensures TxnOk(s', x) { assert TxnOk(s, x); }
    forall id | id in s'.locks ensures LockOk(s', id) { assert LockOk(s, id); }
    SameHistory(s, s');
  }

  /** One row visited: the acquisition's record moves on, and the row is locked if it was taken. */
  lemma VisitKeeps(s: State, t: Token, a: Acquire, locks': map<AccountId, Holder>)
    requires Inv(s) && t in s.acquires
    requires a == s.acquires[t].(left := a.left, taken := a.taken) && s.acquires[t].taken <= a.taken
    requires locks' - (a.taken - s.acquires[t].taken) == s.locks
    requires forall id :: id in a.taken - s.acquires[t].taken ==>
               id in s.rows && s.rows[id].key == a.key && id in locks' && locks'[id] == ByAcquire(t)
    ensures Inv(s.(acquires := s.acquires[t := a], locks := locks'))
  {
    var s' := s.(acquires := s.acquires[t := a], locks := locks');
    forall id | id in s.locks ensures id in locks' && locks'[id] == s.locks[id] {
      assert id in locks' - (a.taken - s.acquires[t].taken);
    }
    forall k | k in s'.rows ensures RowOk(s', k) { assert RowOk(s, k); }
    forall k | k in s'.acquires ensures AcquireOk(s', k) { assert AcquireOk(s, k); }
    forall x | x in s'.txns ensures TxnOk(s', x) { assert TxnOk(s, x); }
    forall k | k in s'.locks ensures LockOk(s', k) {
      if k in s.locks { assert LockOk(s, k); } else { assert k !in locks' - (a.taken - s.acquires[t].taken); }
    }
    SameHistory(s, s');
  }

  lemma TakeKeeps(s: State, t: Token, id: AccountId)
    requires Inv(s) && t in s.acquires && Unlocked(s, {id})
    ensures Inv(Taken(s, t, id))
  {
    var a := s.acquires[t];
    assert id in {id};
    assert id !in s.locks;
    assert AcquireOk(s, t);
    assert s.locks - {} == s.locks && s.locks[id := ByAcquire(t)] - {id} == s.locks;
    if id in s.rows && s.rows[id].key == a.key && Acquirable(s.rows[id], a.started) {
      var a' := a.(left := a.left - {id}, taken := a.taken + {id});
      assert a'.taken - a.taken == {id};
      VisitKeeps(s, t, a', s.locks[id := ByAcquire(t)]);
    } else {
      VisitKeeps(s, t, a.(left := a.left - {id}), s.locks);
    }
  }

  lemma DropKeeps(s: State, t: Token)
    requires Inv(s) && t in s.acquires
    ensures Inv(Dropped(s, t))
  {
    var s' := Dropped(s, t);
    forall id | id in s'.rows ensures RowOk(s', id) { assert RowOk(s, id); }
    forall k | k in s'.acquires ensures AcquireOk(s', k) { assert AcquireOk(s, k); }
    forall x | x in s'.txns ensures TxnOk(s', x) { assert TxnOk(s, x); }
    forall id | id in s'.locks ensures LockOk(s', id) { assert LockOk(s, id); }
    SameHistory(s, s');
  }

  lemma EndKeeps(s: State, t: Token)
    requires Inv(s) && t in s.acquires
    ensures Inv(Ended(s, t))
  {
    DropKeeps(s, t);
    var a := s.acquires[t];
    if Complete(a) {
      var s1 := Dropped(s, t);
      var rows' := TakenRows(s.rows, a, t);
      assert AcquireOk(s, t);
      forall id | id in rows' ensures MayBecome(s1, id, rows'[id]) {
        assert RowOk(s1, id);
        assert (id, t) in s.past ==> PastOk(s, (id, t));
      }
      RowsKeepInv(s1, rows');
    }
  }

  lemma CloseKeeps(s: State, x: Session)
    requires Inv(s) && x in s.txns
    ensures Inv(Closed(s, x))
  {
    var s' := Closed(s, x);
    forall id | id in s'.rows ensures RowOk(s', id) { assert RowOk(s, id); }
    forall t | t in s'.acquires ensures AcquireOk(s', t) { assert AcquireOk(s, t); }
    forall k | k in s'.txns ensures TxnOk(s', k) { assert TxnOk(s, k); }
    forall id | id in s'.locks ensures LockOk(s', id) { assert LockOk(s, id); }
    SameHistory(s, s');
  }

  lemma AskKeeps(s: State, x: Session, id: AccountId, t: Token, deadline: Time)
    requires Inv(s) && x !in s.txns
    ensures Inv(s.(txns := s.txns[x := Txn(id, t, deadline, Asked, s.now, 0, 0, 0, 0)]))
  {
    var s' := s.(txns := s.txns[x := Txn(id, t, deadline, Asked, s.now, 0, 0, 0, 0)]);
    forall k | k in s'.rows ensures RowOk(s', k) { assert RowOk(s, k); }
    forall k | k in s'.acquires ensures AcquireOk(s', k) { assert AcquireOk(s, k); }
    forall k | k in s'.txns ensures TxnOk(s', k) { assert k in s.txns ==> TxnOk(s, k); }
    forall k | k in s'.locks ensures LockOk(s', k) { assert LockOk(s, k); }
    SameHistory(s, s');
  }

  lemma LockKeeps(s: State, x: Session)
    requires Inv(s) && In(s, x, Asked) && Unlocked(s, {s.txns[x].id})
    ensures Inv(Locked(s, x))
  {
    var tx := s.txns[x];
    if Passes(s, tx, tx.began) {
      var s' := Locked(s, x);
      assert tx.id in {tx.id};
      assert tx.id !in s.locks;
      forall id | id in s'.rows ensures RowOk(s', id) { assert RowOk(s, id); }
      forall t | t in s'.acquires ensures AcquireOk(s', t) { assert AcquireOk(s, t); }
      forall k | k in s'.txns ensures TxnOk(s', k) { assert TxnOk(s, k); }
      forall id | id in s'.locks ensures LockOk(s', id) { assert id in s.locks ==> LockOk(s, id); }
      SameHistory(s, s');
    } else {
      CloseKeeps(s, x);
    }
  }

  lemma ValidateKeeps(s: State, x: Session)
    requires Inv(s) && In(s, x, Open)
    ensures Inv(Validating(s, x))
  {
    var tx := s.txns[x];
    if s.uptime < tx.deadline && Passes(s, tx, s.now) {
      var s' := Validating(s, x);
      forall id | id in s'.rows ensures RowOk(s', id) { assert RowOk(s, id); }
      forall t | t in s'.acquires ensures AcquireOk(s', t) { assert AcquireOk(s, t); }
      forall k | k in s'.txns ensures TxnOk(s', k) { assert TxnOk(s, k); }
      forall id | id in s'.locks ensures LockOk(s', id) { assert LockOk(s, id); }
      SameHistory(s, s');
    } else {
      CloseKeeps(s, x);
    }
  }

  lemma CommitKeeps(s: State, x: Session)
    requires Inv(s) && In(s, x, Validated)
    ensures Inv(Committed(s, x))
  {
    CloseKeeps(s, x);
    var tx := s.txns[x];
    var s' := Committed(s, x);
    assert TxnOk(s, x);
    forall id | id in s'.rows ensures RowOk(s', id) { assert RowOk(Closed(s, x), id); }
    forall t | t in s'.acquires ensures AcquireOk(s', t) { assert AcquireOk(Closed(s, x), t); }
    forall k | k in s'.txns ensures TxnOk(s', k) { assert TxnOk(Closed(s, x), k); }
    forall id | id in s'.locks ensures LockOk(s', id) { assert LockOk(Closed(s, x), id); }
    CommitKeepsHistory(s, x);
  }

  lemma CommitKeepsHistory(s: State, x: Session)
    requires Inv(s) && In(s, x, Validated)
    ensures HistoryInv(Committed(s, x))
  {
    var tx := s.txns[x];
    var s' := Committed(s, x);
    assert TxnOk(s, x);
    forall p | p in s'.past ensures PastOk(s', p) { assert PastOk(s, p); }
    forall i | 0 <= i < |s'.log| ensures EntryOk(s', s'.log[i]) {
      assert i < |s.log| ==> EntryOk(s, s.log[i]);
    }
    forall i, j | 0 <= i < j < |s'.log| && s'.log[i].id == s'.log[j].id && s'.log[i].token != s'.log[j].token
      ensures (s'.log[i].id, s'.log[i].token) in s'.past
    {
      assert EntryOk(s, s.log[i]);
    }
    forall i, j, k | 0 <= i < j < k < |s'.log| && s'.log[i].id == s'.log[j].id == s'.log[k].id
                     && s'.log[i].token == s'.log[k].token
      ensures s'.log[j].token == s'.log[i].token
    {
      assert RowOk(s, tx.id);
    }
  }

  lemma StepKeepsInv(s: State, step: Step)
    requires Inv(s)
    ensures Inv(Next(s, step))
  {
    if Enabled(s, step) {
      match step {
        case Tick(_, _) => SameButSide(s, Next(s, step));
        case Insert(key) => InsertKeeps(s, key);
        case EditLoad(_, _) => SameButSide(s, Next(s, step));
        case EditSave(e, key) => EditKeeps(s, e, key);
        case Delete(id) => DeleteKeeps(s, id);
        case AcquireCount(key, seconds) => CountKeeps(s, key, seconds);
        case AcquireScan(t) => ScanKeeps(s, t);
        case AcquireTake(t, id) => TakeKeeps(s, t, id);
        case AcquireEnd(t) => EndKeeps(s, t);
        case AcquireAbort(t) => DropKeeps(s, t);
        case RefreshAsk(_, _) => SameButSide(s, Next(s, step));
        case RefreshLand(r) => RefreshKeeps(s, r);
        case Clear(t) => ClearKeeps(s, t);
        case TxnAsk(x, id, t, deadline) => AskKeeps(s, x, id, t, deadline);
        case TxnLock(x) => LockKeeps(s, x);
        case TxnValidate(x) => ValidateKeeps(s, x);
        case TxnCommit(x) => CommitKeeps(s, x);
        case TxnRollback(x) => CloseKeeps(s, x);
      }
    }
  }

  lemma {:induction false} RunKeepsInv(s: State, steps: seq<Step>)
    requires Inv(s)
    ensures Inv(Run(s, steps))
    decreases |steps|
  {
    if steps != [] {
      StepKeepsInv(s, steps[0]);
      RunKeepsInv(Next(s, steps[0]), steps[1..]);
    }
  }

  lemma Reachable(steps: seq<Step>)
    ensures Inv(Run(Init, steps))
  {
    RunKeepsInv(Init, steps);
  }

  // ---- a lost lease never commits again -----------------------------------------------------

  /** A step that writes no rows changes neither them nor the history of who held them. */
  lemma QuietStep(s: State, step: Step)
    requires !WritesRows(step)
    ensures Next(s, step).rows == s.rows && Next(s, step).past == s.past && Next(s, step).now >= s.now
    ensures Next(s, step).log == s.log || (step.TxnCommit? && Enabled(s, step) && Next(s, step).log == s.log + [s.txns[step.x]])
  {
  }

  /** A step that writes rows commits no fenced transaction, and remembers every lease it ends. */
  lemma WritingStep(s: State, step: Step)
    requires Inv(s) && WritesRows(step)
    ensures Next(s, step).log == s.log && Next(s, step).now == s.now
    ensures Next(s, step).past == s.past + Lost(s.rows, Next(s, step).rows)
  {
    assert s.nextId in s.rows ==> RowOk(s, s.nextId);
  }

  /** Once a lease on a row is over it stays over, and no commit under it is added. */
  lemma OverStaysOver(s: State, step: Step, id: AccountId, t: Token)
    requires Inv(s) && (id, t) in s.past
    ensures (id, t) in Next(s, step).past
    ensures var log' := Next(s, step).log;
            s.log <= log' && forall i :: |s.log| <= i < |log'| ==> (log'[i].id, log'[i].token) != (id, t)
  {
    if WritesRows(step) {
      WritingStep(s, step);
    } else {
      QuietStep(s, step);
      assert PastOk(s, (id, t));
      assert step.TxnCommit? && Enabled(s, step) ==> TxnOk(s, step.x);
    }
  }

  /** The row goes, or its token changes: the lease is over. */
  lemma LosingEndsIt(s: State, step: Step, id: AccountId, t: Token)
    requires Inv(s) && id in s.rows && s.rows[id].token == Some(t)
    requires id !in Next(s, step).rows || Next(s, step).rows[id].token != Some(t)
    ensures (id, t) in Next(s, step).past
  {
    if WritesRows(step) {
      WritingStep(s, step);
      assert (id, t) in Lost(s.rows, Next(s, step).rows);
    } else {
      QuietStep(s, step);
    }
  }

  lemma {:induction false} NoMoreCommits(s: State, steps: seq<Step>, id: AccountId, t: Token)
    requires Inv(s) && (id, t) in s.past
    ensures var log' := Run(s, steps).log;
            s.log <= log' && forall i :: |s.log| <= i < |log'| ==> (log'[i].id, log'[i].token) != (id, t)
    decreases |steps|
  {
    if steps != [] {
      OverStaysOver(s, steps[0], id, t);
      StepKeepsInv(s, steps[0]);
      NoMoreCommits(Next(s, steps[0]), steps[1..], id, t);
    }
  }

  lemma {:induction false} LostSomewhere(s: State, steps: seq<Step>, id: AccountId, t: Token)
    requires Inv(s) && ((id, t) in s.past || (id in s.rows && s.rows[id].token == Some(t)))
    requires id !in Run(s, steps).rows || Run(s, steps).rows[id].token != Some(t)
    ensures (id, t) in Run(s, steps).past
    decreases |steps|
  {
    if steps != [] {
      var s' := Next(s, steps[0]);
      StepKeepsInv(s, steps[0]);
      if (id, t) in s.past {
        OverStaysOver(s, steps[0], id, t);
      } else if id !in s'.rows || s'.rows[id].token != Some(t) {
        LosingEndsIt(s, steps[0], id, t);
      }
      LostSomewhere(s', steps[1..], id, t);
    }
  }

  /**
   Once another token holds the row, or none, or the row is deleted, the old token never commits on it
   again: whatever is added to the log after that point is not its.
   */
  lemma LostLeaseNeverCommits(before: seq<Step>, between: seq<Step>, after: seq<Step>, id: AccountId, t: Token)
    requires var s := Run(Init, before); id in s.rows && s.rows[id].token == Some(t)
    requires var s := Run(Run(Init, before), between); id !in s.rows || s.rows[id].token != Some(t)
    ensures var s := Run(Run(Init, before), between);
            var log' := Run(s, after).log;
            s.log <= log' && forall i :: |s.log| <= i < |log'| ==> !(log'[i].id == id && log'[i].token == t)
  {
    Reachable(before);
    var s := Run(Init, before);
    RunKeepsInv(s, between);
    LostSomewhere(s, between, id, t);
    NoMoreCommits(Run(s, between), after, id, t);
  }

  /** The commits on a row are grouped by lease, and each had a live lease at both checks and met its deadline. */
  lemma CommitsAreFenced(steps: seq<Step>)
    ensures var log := Run(Init, steps).log;
            && Grouped(log)
            && forall i :: 0 <= i < |log| ==>
                 && log[i].began < log[i].beganUntil
                 && log[i].began <= log[i].validated < log[i].validatedUntil
                 && log[i].uptime < log[i].deadline
  {
    Reachable(steps);
    var s := Run(Init, steps);
    forall i | 0 <= i < |s.log| ensures LiveAtBothChecks(s.log[i]) {
      assert EntryOk(s, s.log[i]);
    }
  }

  /** While a fenced transaction is open its account row exists and still names its token. */
  lemma OpenTransactionKeepsItsRow(steps: seq<Step>, x: Session)
    requires var s := Run(Init, steps); x in s.txns && s.txns[x].phase != Asked
    ensures var s := Run(Init, steps);
            var tx := s.txns[x];
            && tx.id in s.rows && s.rows[tx.id].token == Some(tx.token)
            && forall y :: y in s.txns && s.txns[y].phase != Asked && s.txns[y].id == tx.id ==> y == x
  {
    Reachable(steps);
    var s := Run(Init, steps);
    assert TxnOk(s, x);
    forall y | y in s.txns && s.txns[y].phase != Asked && s.txns[y].id == s.txns[x].id ensures y == x {
      assert TxnOk(s, y);
    }
  }

  /** No lease outlives its lock time by more than the job cap. */
  lemma ExpiryIsCapped(steps: seq<Step>, id: AccountId)
    requires id in Run(Init, steps).rows && Run(Init, steps).rows[id].token.Some?
    ensures var a := Run(Init, steps).rows[id];
            a.lockedAt.Some? && a.expires.Some? && a.expires.value <= a.lockedAt.value + JOB_CAP
  {
    Reachable(steps);
    assert RowOk(Run(Init, steps), id);
  }
}
