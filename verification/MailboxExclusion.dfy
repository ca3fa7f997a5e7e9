/**
 Mutual exclusion on a physical mailbox: at most one live token across all the account rows that name it.

 The count and the UPDATE of an acquisition are two statements, an edit may carry a lease it never saw to
 another mailbox, and a refresh may revive a lease that lapsed while it waited. Exclusion holds exactly as
 long as no step does so beside a live lease of someone else.
 */
module MailboxExclusion {
  import opened Common
  import opened MailboxLease
  import opened MailboxFence

  predicate LiveNow(s: State, id: AccountId) { id in s.rows && LiveAt(s.rows[id], s.now) }

  /** All live rows of one mailbox carry one token. */
  ghost predicate Exclusive(s: State) {
    forall i, j :: LiveNow(s, i) && LiveNow(s, j) && s.rows[i].key == s.rows[j].key ==> s.rows[i].token == s.rows[j].token
  }

  /** No live lease of a mailbox but these rows'. */
  predicate TakesEveryLive(s: State, a: Acquire) {
    forall id :: id in Siblings(s.rows, a.key) && LiveNow(s, id) ==> id in a.taken
  }

  /** No live lease of a mailbox under another token, apart from one row. */
  predicate NoneElse(s: State, key: Key, token: Option<Token>, apart: Option<AccountId>) {
    forall j :: j in Siblings(s.rows, key) && LiveNow(s, j) && Some(j) != apart ==> s.rows[j].token == token
  }

  predicate Lapsed(s: State, id: AccountId, t: Token) {
    id in s.rows && s.rows[id].token == Some(t) && !LiveAt(s.rows[id], s.now)
  }

  predicate Live(s: State, id: AccountId, t: Token) {
    id in s.rows && s.rows[id].token == Some(t) && LiveAt(s.rows[id], s.now)
  }

  /** A refresh that would bring a row back, by what is there before it. */
  predicate Revives(s: State, r: Refresh, id: AccountId)
    requires id in s.rows
  {
    && (forall k :: k in HeldBy(s.rows, r.token) ==> MayRefresh(s.rows[k], r))
    && s.rows[id].lockedAt.Some? && s.now < Min(r.asked + r.seconds, s.rows[id].lockedAt.value + JOB_CAP)
  }

  /** Just the steps that keep exclusion, by what is there before them. */
  predicate Careful(s: State, step: Step) {
    Enabled(s, step) ==>
      match step
      case AcquireEnd(t) =>
        var a := s.acquires[t];
        Complete(a) && a.count > 0 && s.now < a.started + a.seconds ==> TakesEveryLive(s, a)
      case EditSave(e, key) =>
        var id := s.edits[e].id;
        LiveNow(s, id) ==>
          s.edits[e].sawLease || key == s.rows[id].key || NoneElse(s, key, s.rows[id].token, Some(id))
      case RefreshLand(r) =>
        forall id :: id in s.rows && Lapsed(s, id, r.token) && Revives(s, r, id) ==> NoneElse(s, s.rows[id].key, Some(r.token), None)
      case _ => true
  }

  /** An acquisition that ends well holds every row of the mailbox exactly when no sibling was missed. */
  lemma TakesAllExactly(s: State, t: Token)
    requires Inv(s) && t in s.acquires && Complete(s.acquires[t])
    ensures var a := s.acquires[t];
            && a.taken <= Siblings(s.rows, a.key)
            && (a.taken == Siblings(s.rows, a.key) <==> |Siblings(s.rows, a.key)| == a.count)
            && a.count <= |Siblings(s.rows, a.key)|
  {
    assert AcquireOk(s, t);
    SubsetSize(s.acquires[t].taken, Siblings(s.rows, s.acquires[t].key));
  }

  lemma TakenAreHeld(rows: Rows, a: Acquire, t: Token)
    requires a.taken <= rows.Keys && forall id :: id in rows ==> rows[id].token != Some(t)
    ensures HeldBy(TakenRows(rows, a, t), t) == a.taken
    ensures forall id :: id in a.taken ==> TakenRows(rows, a, t)[id].expires == Some(a.started + a.seconds)
  {
  }

  /** All or none: an acquisition that ends either holds as many rows as it counted, live for the time asked, or changed nothing. */
  lemma AllOrNone(s: State, t: Token)
    requires Inv(s) && t in s.acquires
    ensures var a, rows' := s.acquires[t], Ended(s, t).rows;
            if Complete(a)
            then HeldBy(rows', t) == a.taken && |a.taken| == a.count
                 && forall id :: id in a.taken ==> id in rows' && rows'[id].expires == Some(a.started + a.seconds)
            else rows' == s.rows
  {
    assert AcquireOk(s, t);
    forall id | id in s.rows ensures s.rows[id].token != Some(t) {
      assert RowOk(s, id);
    }
    TakenAreHeld(s.rows, s.acquires[t], t);
  }

  /** Releasing undoes acquiring: the rows taken are free again, every other row is as it was. */
  lemma ReleaseUndoesAcquire(s: State, t: Token)
    requires Inv(s) && t in s.acquires && Complete(s.acquires[t])
    ensures ClearedRows(Ended(s, t).rows, t)
            == map id | id in s.rows :: if id in s.acquires[t].taken then Unleased(s.rows[id]) else s.rows[id]
  {
    assert AcquireOk(s, t);
    forall id | id in s.rows
      ensures ClearedRows(Ended(s, t).rows, t)[id] == if id in s.acquires[t].taken then Unleased(s.rows[id]) else s.rows[id]
    {
      assert RowOk(s, id);
    }
  }

  // ---- exclusion, exactly -------------------------------------------------------------------

  /** What the end of a complete acquisition makes of the rows. */
  lemma EndedRows(s: State, t: Token, id: AccountId)
    requires t in s.acquires && Complete(s.acquires[t])
    ensures var a, s' := s.acquires[t], Ended(s, t);
            && s'.now == s.now && (id in s'.rows <==> id in s.rows)
            && (id in s.rows ==> s'.rows[id] == if id in a.taken then Leased(s.rows[id], t, a.started, a.seconds) else s.rows[id])
  {
  }

  lemma EndSparesTheLive(s: State, t: Token)
    requires LeaseInv(s) && Exclusive(s) && Enabled(s, AcquireEnd(t)) && Complete(s.acquires[t]) && Careful(s, AcquireEnd(t))
    ensures Exclusive(Ended(s, t))
  {
    var a, s' := s.acquires[t], Ended(s, t);
    assert AcquireOk(s, t);
    forall i, j | LiveNow(s', i) && LiveNow(s', j) && s'.rows[i].key == s'.rows[j].key ensures s'.rows[i].token == s'.rows[j].token {
      EndedRows(s, t, i);
      EndedRows(s, t, j);
      assert i !in a.taken ==> LiveNow(s, i);
      assert j !in a.taken ==> LiveNow(s, j);
    }
  }

  lemma EndMustTakeTheLive(s: State, t: Token)
    requires LeaseInv(s) && t in s.acquires && Exclusive(Ended(s, t))
    requires var a := s.acquires[t]; Complete(a) && a.count > 0 && s.now < a.started + a.seconds
    ensures TakesEveryLive(s, s.acquires[t])
  {
    var a, s' := s.acquires[t], Ended(s, t);
    assert AcquireOk(s, t);
    var one :| one in a.taken;
    EndedRows(s, t, one);
    forall id | id in Siblings(s.rows, a.key) && LiveNow(s, id) ensures id in a.taken {
      EndedRows(s, t, id);
      assert RowOk(s, id) && LiveNow(s', one) && LiveNow(s', id);
    }
  }

  /** The end of an acquisition keeps exclusion exactly if it changes nothing, comes too late, or took every live lease of the mailbox. */
  lemma EndIsExclusiveExactly(s: State, t: Token)
    requires LeaseInv(s) && Exclusive(s) && Enabled(s, AcquireEnd(t))
    ensures Exclusive(Ended(s, t)) <==> Careful(s, AcquireEnd(t))
  {
    if Complete(s.acquires[t]) {
      if Careful(s, AcquireEnd(t)) {
        EndSparesTheLive(s, t);
      } else if Exclusive(Ended(s, t)) {
        EndMustTakeTheLive(s, t);
      }
    } else {
      NothingTaken(s, t);
    }
  }

  lemma NothingTaken(s: State, t: Token)
    requires Exclusive(s) && t in s.acquires && !Complete(s.acquires[t])
    ensures Exclusive(Ended(s, t))
  {
    var s' := Ended(s, t);
    forall i, j | LiveNow(s', i) && LiveNow(s', j) && s'.rows[i].key == s'.rows[j].key ensures s'.rows[i].token == s'.rows[j].token {
      assert LiveNow(s, i) && LiveNow(s, j);
    }
  }

  /** An edit keeps exclusion exactly if it saw the lease, there is no live one, it stays put, or it finds none but its own. */
  lemma SaveIsExclusiveExactly(s: State, e: Session, key: Key)
    requires Exclusive(s) && Enabled(s, EditSave(e, key))
    ensures Exclusive(Saved(s, e, key)) <==> Careful(s, EditSave(e, key))
  {
    var id, s' := s.edits[e].id, Saved(s, e, key);
    if LiveNow(s, id) && !s.edits[e].sawLease && key != s.rows[id].key && Exclusive(s') {
      forall j | j in Siblings(s.rows, key) && LiveNow(s, j) && Some(j) != Some(id) ensures s.rows[j].token == s.rows[id].token {
        assert LiveNow(s', j) && LiveNow(s', id) && s'.rows[j] == s.rows[j];
      }
    }
    if Careful(s, EditSave(e, key)) {
      forall i, j | LiveNow(s', i) && LiveNow(s', j) && s'.rows[i].key == s'.rows[j].key ensures s'.rows[i].token == s'.rows[j].token {
        assert LiveNow(s, i) && LiveNow(s, j);
        assert i != id ==> i in Siblings(s.rows, s'.rows[i].key);
        assert j != id ==> j in Siblings(s.rows, s'.rows[j].key);
      }
    }
  }

  /**
   A refresh brings a lapsed lease back exactly when its clock reading, taken before it waited for the
   rows, still precedes every expiry, and the new expiry computed from that reading has not passed yet.
   */
  lemma RevivedExactly(s: State, r: Refresh, id: AccountId)
    requires Inv(s) && Enabled(s, RefreshLand(r)) && Lapsed(s, id, r.token)
    ensures Live(Next(s, RefreshLand(r)), id, r.token) <==> Revives(s, r, id)
  {
    assert RowOk(s, id);
    assert forall k :: k in HeldBy(s.rows, r.token) <==> k in s.rows && s.rows[k].token == Some(r.token);
  }

  /** A refresh keeps exclusion exactly if no row it revives has a live lease of someone else beside it. */
  lemma LandIsExclusiveExactly(s: State, r: Refresh)
    requires Inv(s) && Exclusive(s) && Enabled(s, RefreshLand(r))
    ensures Exclusive(Next(s, RefreshLand(r))) <==> Careful(s, RefreshLand(r))
  {
    var s' := Next(s, RefreshLand(r));
    forall id | Lapsed(s, id, r.token) ensures LiveNow(s', id) <==> Revives(s, r, id) {
      RevivedExactly(s, r, id);
      assert SameButExpiry(s.rows, s'.rows, r.token, id);
    }
    assert forall id :: id in s.rows ==> SameButExpiry(s.rows, s'.rows, r.token, id);
    if Exclusive(s') {
      forall id, j | Lapsed(s, id, r.token) && Revives(s, r, id) && j in Siblings(s.rows, s.rows[id].key) && LiveNow(s, j)
        ensures s.rows[j].token == Some(r.token)
      {
        assert LiveNow(s', id) && (s.rows[j].token != Some(r.token) ==> LiveNow(s', j));
      }
    }
    if Careful(s, RefreshLand(r)) {
      forall i, j | LiveNow(s', i) && LiveNow(s', j) && s'.rows[i].key == s'.rows[j].key ensures s'.rows[i].token == s'.rows[j].token {
        LandedPair(s, r, i, j);
      }
    }
  }

  predicate SameButExpiry(rows: Rows, rows': Rows, t: Token, id: AccountId)
    requires id in rows
  {
    id in rows' && rows'[id].key == rows[id].key && rows'[id].token == rows[id].token && (rows[id].token != Some(t) ==> rows'[id] == rows[id])
  }

  lemma LandedPair(s: State, r: Refresh, i: AccountId, j: AccountId)
    requires Inv(s) && Exclusive(s) && Enabled(s, RefreshLand(r)) && Careful(s, RefreshLand(r))
    requires var s' := Next(s, RefreshLand(r)); LiveNow(s', i) && LiveNow(s', j) && s'.rows[i].key == s'.rows[j].key
    ensures s.rows[i].token == s.rows[j].token
  {
    var s' := Next(s, RefreshLand(r));
    assert SameButExpiry(s.rows, s'.rows, r.token, i) && SameButExpiry(s.rows, s'.rows, r.token, j);
    if s.rows[i].token == Some(r.token) && !LiveNow(s, i) {
      RevivedExactly(s, r, i);
      assert NoneElse(s, s.rows[i].key, Some(r.token), None);
      assert j in Siblings(s.rows, s.rows[i].key);
    } else if s.rows[j].token == Some(r.token) && !LiveNow(s, j) {
      RevivedExactly(s, r, j);
      assert NoneElse(s, s.rows[j].key, Some(r.token), None);
      assert i in Siblings(s.rows, s.rows[j].key);
    }
  }

  lemma OthersKeepExclusion(s: State, step: Step)
    requires Inv(s) && Exclusive(s) && !step.AcquireEnd? && !step.EditSave? && !step.RefreshLand?
    ensures Exclusive(Next(s, step))
  {
    var s' := Next(s, step);
    if !WritesRows(step) { QuietStep(s, step); }
    forall i, j | LiveNow(s', i) && LiveNow(s', j) && s'.rows[i].key == s'.rows[j].key ensures s'.rows[i].token == s'.rows[j].token {
      LiveBefore(s, step, i);
      LiveBefore(s, step, j);
    }
  }

  lemma LiveBefore(s: State, step: Step, id: AccountId)
    requires !step.AcquireEnd? && !step.EditSave? && !step.RefreshLand? && LiveNow(Next(s, step), id)
    ensures LiveNow(s, id) && Next(s, step).rows[id] == s.rows[id]
  {
    if !WritesRows(step) { QuietStep(s, step); }
  }

  /** One step keeps exclusion if and only if it is careful. */
  lemma StepIsExclusiveExactly(s: State, step: Step)
    requires Inv(s) && Exclusive(s)
    ensures Exclusive(Next(s, step)) <==> Careful(s, step)
  {
    if Enabled(s, step) {
      match step {
        case EditSave(e, key) => SaveIsExclusiveExactly(s, e, key);
        case AcquireEnd(t) => EndIsExclusiveExactly(s, t);
        case RefreshLand(r) => LandIsExclusiveExactly(s, r);
        case _ => OthersKeepExclusion(s, step);
      }
    }
  }

  ghost predicate AllCareful(s: State, steps: seq<Step>)
    decreases |steps|
  {
    steps != [] ==> Careful(s, steps[0]) && AllCareful(Next(s, steps[0]), steps[1..])
  }

  /** Exclusion holds after every step of the run. */
  ghost predicate ExclusiveThroughout(s: State, steps: seq<Step>)
    decreases |steps|
  {
    Exclusive(s) && (steps != [] ==> ExclusiveThroughout(Next(s, steps[0]), steps[1..]))
  }

  /** Over a whole run, exclusion holds throughout if and only if every step is careful. */
  lemma {:induction false} ExclusiveExactly(s: State, steps: seq<Step>)
    requires Inv(s) && Exclusive(s)
    ensures ExclusiveThroughout(s, steps) <==> AllCareful(s, steps)
    ensures AllCareful(s, steps) ==> Exclusive(Run(s, steps))
    decreases |steps|
  {
    if steps != [] {
      StepKeepsInv(s, steps[0]);
      StepIsExclusiveExactly(s, steps[0]);
      if Careful(s, steps[0]) {
        ExclusiveExactly(Next(s, steps[0]), steps[1..]);
      }
    }
  }

  /** In every reachable state of a careful run, two live rows of one mailbox are held by one token. */
  lemma AtMostOneHolder(steps: seq<Step>, i: AccountId, j: AccountId)
    requires AllCareful(Init, steps)
    requires var s := Run(Init, steps);
             i in s.rows && j in s.rows && s.rows[i].key == s.rows[j].key && LiveAt(s.rows[i], s.now) && LiveAt(s.rows[j], s.now)
    ensures var s := Run(Init, steps); s.rows[i].token == s.rows[j].token && s.rows[i].token.Some?
  {
    Reachable(steps);
    Reachable([]);
    ExclusiveExactly(Init, steps);
    var s := Run(Init, steps);
    assert LiveNow(s, i) && LiveNow(s, j);
    assert RowOk(s, i) && RowOk(s, j);
  }

  // ---- two ways to break it -----------------------------------------------------------------

  lemma {:induction false} RunConcat(s: State, first: seq<Step>, then_: seq<Step>)
    ensures Run(s, first + then_) == Run(Run(s, first), then_)
    decreases |first|
  {
    if first == [] {
      assert first + then_ == then_;
    } else {
      assert (first + then_)[1..] == first[1..] + then_;
      RunConcat(Next(s, first[0]), first[1..], then_);
    }
  }

  lemma RunOne(s: State, step: Step)
    ensures Run(s, [step]) == Next(s, step)
  {
    assert [step][1..] == [];
    assert Run(Next(s, step), []) == Next(s, step);
  }

  lemma RunTwo(s: State, a: Step, b: Step)
    ensures Run(s, [a, b]) == Next(Next(s, a), b)
  {
    assert [a, b] == [a] + [b];
    RunConcat(s, [a], [b]);
    RunOne(s, a);
    RunOne(Next(s, a), b);
  }

  function Grab(t: Token, id: AccountId): seq<Step> {
    [AcquireScan(t), AcquireTake(t, id)] + [AcquireEnd(t)]
  }

  /** What an acquisition that counted one row and finds one free row does to an otherwise idle state. */
  lemma GrabOne(s: State, t: Token, id: AccountId, key: Key, seconds: int)
    requires s.acquires == map[t := Acquire(key, s.now, seconds, 1, false, {}, {})]
    requires s.locks == map[] && id in s.rows && s.rows[id].key == key && s.rows[id].token.None?
    requires forall k :: k in s.rows && s.rows[k].key == key ==> (Acquirable(s.rows[k], s.now) <==> k == id)
    ensures Run(s, Grab(t, id)) == s.(rows := s.rows[id := Leased(s.rows[id], t, s.now, seconds)], acquires := map[])
  {
    var s1 := s.(acquires := map[t := Acquire(key, s.now, seconds, 1, true, {id}, {})]);
    var s2 := s.(acquires := map[t := Acquire(key, s.now, seconds, 1, true, {}, {id})], locks := map[id := ByAcquire(t)]);
    GrabScans(s, t, id, key, seconds);
    GrabTakes(s1, t, id);
    GrabEnds(s2, t, id);
    RunTwo(s, AcquireScan(t), AcquireTake(t, id));
    RunOne(s2, AcquireEnd(t));
    RunConcat(s, [AcquireScan(t), AcquireTake(t, id)], [AcquireEnd(t)]);
  }

  lemma GrabScans(s: State, t: Token, id: AccountId, key: Key, seconds: int)
    requires s.acquires == map[t := Acquire(key, s.now, seconds, 1, false, {}, {})]
    requires id in s.rows && s.rows[id].key == key
    requires forall k :: k in s.rows && s.rows[k].key == key ==> (Acquirable(s.rows[k], s.now) <==> k == id)
    ensures Next(s, AcquireScan(t)) == s.(acquires := map[t := Acquire(key, s.now, seconds, 1, true, {id}, {})])
  {
    var s' := Next(s, AcquireScan(t));
    assert forall k :: k in s'.acquires[t].left <==> k == id;
    assert s'.acquires[t].left == {id};
    assert s'.acquires == map[t := Acquire(key, s.now, seconds, 1, true, {id}, {})];
  }

  lemma GrabTakes(s: State, t: Token, id: AccountId)
    requires s.acquires.Keys == {t} && s.acquires[t].left == {id} && s.acquires[t].taken == {}
    requires s.locks == map[] && id in s.rows && s.rows[id].key == s.acquires[t].key
    requires Acquirable(s.rows[id], s.acquires[t].started)
    ensures Next(s, AcquireTake(t, id))
            == s.(acquires := map[t := s.acquires[t].(left := {}, taken := {id})], locks := map[id := ByAcquire(t)])
  {
    assert s.acquires[t].left - {id} == {} && s.acquires[t].taken + {id} == {id};
    assert s.acquires[t := s.acquires[t].(left := {}, taken := {id})] == map[t := s.acquires[t].(left := {}, taken := {id})];
  }

  lemma GrabEnds(s: State, t: Token, id: AccountId)
    requires s.acquires.Keys == {t} && s.acquires[t].left == {} && s.acquires[t].taken == {id}
    requires s.acquires[t].scanned && s.acquires[t].count == 1
    requires s.locks == map[id := ByAcquire(t)] && id in s.rows && s.rows[id].token.None?
    ensures Next(s, AcquireEnd(t))
            == s.(acquires := map[], locks := map[],
                  rows := s.rows[id := Leased(s.rows[id], t, s.acquires[t].started, s.acquires[t].seconds)])
  {
    assert TakenRows(s.rows, s.acquires[t], t)
        == s.rows[id := Leased(s.rows[id], t, s.acquires[t].started, s.acquires[t].seconds)];
    assert s.acquires - {t} == map[];
    assert Freed(s.locks, ByAcquire(t)) == map[];
    var s' := WithRows(Dropped(s, t), TakenRows(s.rows, s.acquires[t], t));
    assert s'.past == s.past;
  }

  /** A second row for a mailbox is added between another acquisition's count and its UPDATE. */
  const MissedSibling: seq<Step> :=
    ([Insert(5), AcquireCount(5, JOB_CAP)] + Grab(0, 0)) + ([AcquireCount(5, JOB_CAP), Insert(5)] + Grab(1, 1))

  /** Mailbox 5 then has two live holders: token 0 on row 0 and token 1 on row 1. */
  lemma ASiblingCanBeMissed()
    ensures var s := Run(Init, MissedSibling);
            && 0 in s.rows && 1 in s.rows && s.rows[0].key == s.rows[1].key
            && LiveAt(s.rows[0], s.now) && LiveAt(s.rows[1], s.now)
            && s.rows[0].token == Some(0) && s.rows[1].token == Some(1)
  {
    var bare := Account(5, None, None, None);
    RunConcat(Init, [Insert(5), AcquireCount(5, JOB_CAP)] + Grab(0, 0), [AcquireCount(5, JOB_CAP), Insert(5)] + Grab(1, 1));
    RunConcat(Init, [Insert(5), AcquireCount(5, JOB_CAP)], Grab(0, 0));
    RunTwo(Init, Insert(5), AcquireCount(5, JOB_CAP));
    var a := Init.(rows := map[0 := bare], nextId := 1, nextToken := 1, acquires := map[0 := Acquire(5, 0, JOB_CAP, 1, false, {}, {})]);
    assert Siblings(map[0 := bare], 5) == {0};
    assert Run(Init, [Insert(5), AcquireCount(5, JOB_CAP)]) == a;
    GrabOne(a, 0, 0, 5, JOB_CAP);
    var held := Leased(bare, 0, 0, JOB_CAP);
    var b := a.(rows := map[0 := held], acquires := map[]);
    assert Run(a, Grab(0, 0)) == b;
    SecondGrab(b, held);
  }

  lemma SecondGrab(b: State, held: Account)
    requires held == Account(5, Some(0), Some(0), Some(JOB_CAP))
    requires b == Init.(rows := map[0 := held], nextId := 1, nextToken := 1)
    ensures var s := Run(b, [AcquireCount(5, JOB_CAP), Insert(5)] + Grab(1, 1));
            && s.now == 0 && 0 in s.rows && s.rows[0] == held
            && 1 in s.rows && s.rows[1] == Account(5, Some(1), Some(0), Some(JOB_CAP))
  {
    var c := b.(acquires := map[1 := Acquire(5, 0, JOB_CAP, 1, false, {}, {})], nextToken := 2,
                rows := map[0 := held, 1 := Account(5, None, None, None)], nextId := 2);
    RunConcat(b, [AcquireCount(5, JOB_CAP), Insert(5)], Grab(1, 1));
    RunTwo(b, AcquireCount(5, JOB_CAP), Insert(5));
    assert Siblings(b.rows, 5) == {0};
    assert Run(b, [AcquireCount(5, JOB_CAP), Insert(5)]) == c;
    GrabOne(c, 1, 1, 5, JOB_CAP);
  }

  /** An edit loads row 0 unleased, row 0 is then leased, and the edit moves it to a mailbox held by another. */
  const MovedLease: seq<Step> :=
    ([Insert(5), Insert(6)] + ([AcquireCount(6, JOB_CAP)] + Grab(0, 1)))
    + (([EditLoad(9, 0), AcquireCount(5, JOB_CAP)] + Grab(1, 0)) + [EditSave(9, 6)])

  /** Mailbox 6 then has two live holders: token 1 on row 0 and token 0 on row 1. */
  lemma ALeaseCanBeMoved()
    ensures var s := Run(Init, MovedLease);
            && 0 in s.rows && 1 in s.rows && s.rows[0].key == s.rows[1].key
            && LiveAt(s.rows[0], s.now) && LiveAt(s.rows[1], s.now)
            && s.rows[0].token == Some(1) && s.rows[1].token == Some(0)
  {
    var five, six := Account(5, None, None, None), Account(6, None, None, None);
    var held := Account(6, Some(0), Some(0), Some(JOB_CAP));
    RunConcat(Init, [Insert(5), Insert(6)] + ([AcquireCount(6, JOB_CAP)] + Grab(0, 1)),
              ([EditLoad(9, 0), AcquireCount(5, JOB_CAP)] + Grab(1, 0)) + [EditSave(9, 6)]);
    RunConcat(Init, [Insert(5), Insert(6)], [AcquireCount(6, JOB_CAP)] + Grab(0, 1));
    RunTwo(Init, Insert(5), Insert(6));
    var a := Init.(rows := map[0 := five, 1 := six], nextId := 2);
    assert Run(Init, [Insert(5), Insert(6)]) == a;
    RunConcat(a, [AcquireCount(6, JOB_CAP)], Grab(0, 1));
    RunOne(a, AcquireCount(6, JOB_CAP));
    var b := a.(nextToken := 1, acquires := map[0 := Acquire(6, 0, JOB_CAP, 1, false, {}, {})]);
    assert Siblings(a.rows, 6) == {1};
    assert Run(a, [AcquireCount(6, JOB_CAP)]) == b;
    GrabOne(b, 0, 1, 6, JOB_CAP);
    var c := b.(acquires := map[], rows := map[0 := five, 1 := held]);
    assert Run(b, Grab(0, 1)) == c;
    EditCarriesIt(c, five, held);
  }

  lemma EditCarriesIt(c: State, five: Account, held: Account)
    requires five == Account(5, None, None, None) && held == Account(6, Some(0), Some(0), Some(JOB_CAP))
    requires c == Init.(rows := map[0 := five, 1 := held], nextId := 2, nextToken := 1)
    ensures var s := Run(c, ([EditLoad(9, 0), AcquireCount(5, JOB_CAP)] + Grab(1, 0)) + [EditSave(9, 6)]);
            && s.now == 0 && 1 in s.rows && s.rows[1] == held
            && 0 in s.rows && s.rows[0] == Account(6, Some(1), Some(0), Some(JOB_CAP))
  {
    var d := c.(edits := map[9 := Edit(0, false)], nextToken := 2, acquires := map[1 := Acquire(5, 0, JOB_CAP, 1, false, {}, {})]);
    var e := d.(acquires := map[], rows := map[0 := Account(5, Some(1), Some(0), Some(JOB_CAP)), 1 := held]);
    RunConcat(c, [EditLoad(9, 0), AcquireCount(5, JOB_CAP)] + Grab(1, 0), [EditSave(9, 6)]);
    RunConcat(c, [EditLoad(9, 0), AcquireCount(5, JOB_CAP)], Grab(1, 0));
    EditLoadsBare(c, d);
    GrabOne(d, 1, 0, 5, JOB_CAP);
    assert Run(d, Grab(1, 0)) == e;
    RunOne(e, EditSave(9, 6));
    EditMoves(e);
  }

  lemma EditLoadsBare(c: State, d: State)
    requires 0 in c.rows && c.rows[0].token.None? && Siblings(c.rows, 5) == {0}
    requires c.edits == map[] && c.acquires == map[] && c.nextToken == 1 && c.now == 0
    requires d == c.(edits := map[9 := Edit(0, false)], nextToken := 2, acquires := map[1 := Acquire(5, 0, JOB_CAP, 1, false, {}, {})])
    ensures Run(c, [EditLoad(9, 0), AcquireCount(5, JOB_CAP)]) == d
  {
    RunTwo(c, EditLoad(9, 0), AcquireCount(5, JOB_CAP));
  }

  lemma EditMoves(s: State)
    requires s.edits == map[9 := Edit(0, false)] && s.locks == map[] && 0 in s.rows
    ensures Next(s, EditSave(9, 6)).rows == s.rows[0 := s.rows[0].(key := 6)] && Next(s, EditSave(9, 6)).now == s.now
  {
  }

  // ---- lapsed leases ------------------------------------------------------------------------

  /** One row, leased at time 0 for one second. */
  const Held: seq<Step> := [Insert(5), AcquireCount(5, 1)] + Grab(0, 0)

  const HeldOnce: State := Init.(rows := map[0 := Account(5, Some(0), Some(0), Some(1))], nextId := 1, nextToken := 1)

  lemma AShortLease()
    ensures Run(Init, Held) == HeldOnce
  {
    var bare := Account(5, None, None, None);
    RunConcat(Init, [Insert(5), AcquireCount(5, 1)], Grab(0, 0));
    RunTwo(Init, Insert(5), AcquireCount(5, 1));
    var a := Init.(rows := map[0 := bare], nextId := 1, nextToken := 1, acquires := map[0 := Acquire(5, 0, 1, 1, false, {}, {})]);
    assert Siblings(map[0 := bare], 5) == {0};
    assert Run(Init, [Insert(5), AcquireCount(5, 1)]) == a;
    GrabOne(a, 0, 0, 5, 1);
    assert a.rows[0 := Leased(bare, 0, 0, 1)] == HeldOnce.rows;
  }

  /** A refresh asks at time 0, waits until the lease is over, and revives it at time 1. */
  const LateRefresh: seq<Step> := (Held + [RefreshAsk(0, 200), Tick(1, 1)]) + [RefreshLand(Refresh(0, 0, 200))]

  lemma ALateRefreshRevives()
    requires JOB_CAP > 1
    ensures Lapsed(Run(Init, LateRefresh[..|LateRefresh| - 1]), 0, 0) && Live(Run(Init, LateRefresh), 0, 0)
  {
    var wait, land := [RefreshAsk(0, 200), Tick(1, 1)], RefreshLand(Refresh(0, 0, 200));
    assert LateRefresh[..|LateRefresh| - 1] == Held + wait;
    RunConcat(Init, Held + wait, [land]);
    RunConcat(Init, Held, wait);
    AShortLease();
    RunTwo(HeldOnce, RefreshAsk(0, 200), Tick(1, 1));
    RunOne(Run(HeldOnce, wait), land);
    LandsLate(Run(HeldOnce, wait));
  }

  lemma LandsLate(s: State)
    requires JOB_CAP > 1
    requires s.now == 1 && s.locks == map[] && s.rows == map[0 := Account(5, Some(0), Some(0), Some(1))]
    requires Refresh(0, 0, 200) in s.refreshes
    ensures Live(Next(s, RefreshLand(Refresh(0, 0, 200))), 0, 0)
  {
  }

  /** The same, but before the refresh lands a sibling is added and leased beside the lapsed row. */
  const LateAndBeside: seq<Step> :=
    (Held + [RefreshAsk(0, 200), Tick(1, 1)])
    + (([AcquireCount(5, JOB_CAP), Insert(5)] + Grab(1, 1)) + [RefreshLand(Refresh(0, 0, 200))])

  /** Mailbox 5 then has two live holders: token 0 on row 0 and token 1 on row 1. */
  lemma ALateRefreshBreaksExclusion()
    requires JOB_CAP > 1
    ensures var s := Run(Init, LateAndBeside);
            && 0 in s.rows && 1 in s.rows && s.rows[0].key == s.rows[1].key
            && LiveAt(s.rows[0], s.now) && LiveAt(s.rows[1], s.now)
            && s.rows[0].token == Some(0) && s.rows[1].token == Some(1)
  {
    var wait, rest := [RefreshAsk(0, 200), Tick(1, 1)], ([AcquireCount(5, JOB_CAP), Insert(5)] + Grab(1, 1)) + [RefreshLand(Refresh(0, 0, 200))];
    RunConcat(Init, Held + wait, rest);
    RunConcat(Init, Held, wait);
    AShortLease();
    RunTwo(HeldOnce, RefreshAsk(0, 200), Tick(1, 1));
    LeasedBeside(Run(HeldOnce, wait));
  }

  lemma LeasedBeside(s: State)
    requires JOB_CAP > 1
    requires s == HeldOnce.(now := 1, uptime := 1, refreshes := {Refresh(0, 0, 200)})
    ensures var s' := Run(s, ([AcquireCount(5, JOB_CAP), Insert(5)] + Grab(1, 1)) + [RefreshLand(Refresh(0, 0, 200))]);
            && s'.now == 1 && 0 in s'.rows && s'.rows[0] == Account(5, Some(0), Some(0), Some(Min(200, JOB_CAP)))
            && 1 in s'.rows && s'.rows[1] == Account(5, Some(1), Some(1), Some(1 + JOB_CAP))
  {
    var lapsed := Account(5, Some(0), Some(0), Some(1));
    var c := s.(acquires := map[1 := Acquire(5, 1, JOB_CAP, 1, false, {}, {})], nextToken := 2,
                rows := map[0 := lapsed, 1 := Account(5, None, None, None)], nextId := 2);
    var land := RefreshLand(Refresh(0, 0, 200));
    RunConcat(s, [AcquireCount(5, JOB_CAP), Insert(5)] + Grab(1, 1), [land]);
    RunConcat(s, [AcquireCount(5, JOB_CAP), Insert(5)], Grab(1, 1));
    RunTwo(s, AcquireCount(5, JOB_CAP), Insert(5));
    assert Siblings(s.rows, 5) == {0};
    assert Run(s, [AcquireCount(5, JOB_CAP), Insert(5)]) == c;
    GrabOne(c, 1, 1, 5, JOB_CAP);
    RunOne(Run(c, Grab(1, 1)), land);
    LandsBeside(Run(c, Grab(1, 1)));
  }

  lemma LandsBeside(s: State)
    requires JOB_CAP > 1 && s.now == 1 && s.locks == map[] && Refresh(0, 0, 200) in s.refreshes
    requires s.rows == map[0 := Account(5, Some(0), Some(0), Some(1)), 1 := Account(5, Some(1), Some(1), Some(1 + JOB_CAP))]
    ensures Next(s, RefreshLand(Refresh(0, 0, 200))).now == 1
    ensures Next(s, RefreshLand(Refresh(0, 0, 200))).rows
            == map[0 := Account(5, Some(0), Some(0), Some(Min(200, JOB_CAP))), 1 := Account(5, Some(1), Some(1), Some(1 + JOB_CAP))]
  {
  }

  /** The steps that bring a lapsed lease back. */
  predicate Reviving(s: State, step: Step, id: AccountId, t: Token) {
    step.RefreshLand? && Enabled(s, step) && step.r.token == t && Lapsed(s, id, t) && Revives(s, step.r, id)
  }

  /** A lease that is over, or lapsed. */
  predicate NotLive(s: State, id: AccountId, t: Token) { Lapsed(s, id, t) || (id, t) in s.past }

  lemma LapsedStaysExactly(s: State, step: Step, id: AccountId, t: Token)
    requires Inv(s) && Inv(Next(s, step)) && NotLive(s, id, t)
    ensures NotLive(Next(s, step), id, t) <==> !Reviving(s, step, id, t)
    ensures Live(Next(s, step), id, t) <==> Reviving(s, step, id, t)
  {
    var s' := Next(s, step);
    assert (id, t) in s'.past ==> PastOk(s', (id, t));
    assert (id, t) in s.past ==> PastOk(s, (id, t));
    if (id, t) in s.past {
      OverStaysOver(s, step, id, t);
    } else if id !in s'.rows || s'.rows[id].token != Some(t) {
      LosingEndsIt(s, step, id, t);
      if step.RefreshLand? && Enabled(s, step) { WritingStep(s, step); }
    } else if step.RefreshLand? && Enabled(s, step) && step.r.token == t {
      RevivedExactly(s, step.r, id);
    } else {
      OtherwiseUnrefreshed(s, step, id, t);
    }
  }

  /** In the new table the row still names t, and its expiry is the old one. */
  predicate SameExpiry(rows: Rows, rows': Rows, id: AccountId, t: Token)
    requires id in rows
  {
    id in rows' && rows'[id].token == Some(t) ==> rows'[id].expires == rows[id].expires
  }

  lemma SaveKeepsExpiry(s: State, e: Session, key: Key, id: AccountId, t: Token)
    requires e in s.edits && id in s.rows
    ensures SameExpiry(s.rows, Saved(s, e, key).rows, id, t)
  {
  }

  lemma EndKeepsExpiry(s: State, k: Token, id: AccountId, t: Token)
    requires Inv(s) && k in s.acquires && id in s.rows && s.rows[id].token == Some(t)
    ensures SameExpiry(s.rows, Ended(s, k).rows, id, t)
  {
    assert RowOk(s, id);
  }

  lemma OtherwiseUnrefreshed(s: State, step: Step, id: AccountId, t: Token)
    requires Inv(s) && Lapsed(s, id, t) && id in Next(s, step).rows && Next(s, step).rows[id].token == Some(t)
    requires !(step.RefreshLand? && Enabled(s, step) && step.r.token == t)
    ensures Lapsed(Next(s, step), id, t)
  {
    if !WritesRows(step) {
      QuietStep(s, step);
    } else if Enabled(s, step) {
      WritingStep(s, step);
      match step {
        case Insert(_) => assert RowOk(s, id);
        case Delete(_) =>
        case EditSave(e, key) => SaveKeepsExpiry(s, e, key, id, t);
        case AcquireEnd(k) => EndKeepsExpiry(s, k, id, t);
        case RefreshLand(r) => assert SameExpiry(s.rows, RefreshedRows(s.rows, r), id, t);
        case Clear(k) => assert SameExpiry(s.rows, ClearedRows(s.rows, k), id, t);
      }
    }
  }

  /** No step of the run brings the lease back. */
  ghost predicate NoRevival(s: State, steps: seq<Step>, id: AccountId, t: Token)
    decreases |steps|
  {
    steps != [] ==> !Reviving(s, steps[0], id, t) && NoRevival(Next(s, steps[0]), steps[1..], id, t)
  }

  /** The lease is live after no step of the run. */
  ghost predicate NeverLive(s: State, steps: seq<Step>, id: AccountId, t: Token)
    decreases |steps|
  {
    !Live(s, id, t) && (steps != [] ==> NeverLive(Next(s, steps[0]), steps[1..], id, t))
  }

  /** A lease that has lapsed is never live again if and only if no refresh with an early clock reading lands in time. */
  lemma {:induction false} LapsedForGoodExactly(s: State, steps: seq<Step>, id: AccountId, t: Token)
    requires Inv(s) && NotLive(s, id, t)
    ensures NeverLive(s, steps, id, t) <==> NoRevival(s, steps, id, t)
    decreases |steps|
  {
    assert (id, t) in s.past ==> PastOk(s, (id, t));
    if steps != [] {
      StepKeepsInv(s, steps[0]);
      LapsedStaysExactly(s, steps[0], id, t);
      if !Reviving(s, steps[0], id, t) {
        LapsedForGoodExactly(Next(s, steps[0]), steps[1..], id, t);
      }
    }
  }

  // ---- the rightful holder is let through -----------------------------------------------------

  /** A fenced transaction of a live lease, on a row nobody has locked, begins, validates and commits. */
  lemma RightfulHolderCommits(s: State, x: Session)
    requires In(s, x, Asked) && Unlocked(s, {s.txns[x].id})
    requires var tx := s.txns[x]; tx.id in s.rows && s.rows[tx.id].token == Some(tx.token)
    requires var tx := s.txns[x]; tx.began <= s.now && LiveAt(s.rows[tx.id], s.now) && s.uptime < tx.deadline
    ensures var log' := Run(s, ([TxnLock(x), TxnValidate(x)] + [TxnCommit(x)])).log;
            |log'| == |s.log| + 1 && s.log <= log' && log'[|s.log|].id == s.txns[x].id && log'[|s.log|].token == s.txns[x].token
  {
    RunConcat(s, [TxnLock(x), TxnValidate(x)], [TxnCommit(x)]);
    RunTwo(s, TxnLock(x), TxnValidate(x));
    RunOne(Run(s, [TxnLock(x), TxnValidate(x)]), TxnCommit(x));
  }

  /** The row names the token under a live lease, and nobody has locked it. */
  predicate Rightful(s: State, id: AccountId, t: Token) {
    id in s.rows && id !in s.locks && s.rows[id].token == Some(t) && LiveAt(s.rows[id], s.now)
  }

  lemma AskedAndLocked(s: State, x: Session, id: AccountId, t: Token, deadline: Time)
    requires x !in s.txns && s.uptime < deadline && Rightful(s, id, t)
    ensures var until := s.rows[id].expires.value;
            Next(Next(s, TxnAsk(x, id, t, deadline)), TxnLock(x)) ==
              s.(txns := s.txns[x := Txn(id, t, deadline, Open, s.now, until, 0, 0, 0)], locks := s.locks[id := ByTxn(x)])
  {
    assert Next(s, TxnAsk(x, id, t, deadline)) == s.(txns := s.txns[x := Txn(id, t, deadline, Asked, s.now, 0, 0, 0, 0)]);
  }

  lemma ValidatedAndCommitted(s: State, s2: State, x: Session, tx: Txn)
    requires x !in s.txns && tx.id !in s.locks && s.uptime < tx.deadline && Rightful(s, tx.id, tx.token) && tx.phase == Open
    requires s2 == s.(txns := s.txns[x := tx], locks := s.locks[tx.id := ByTxn(x)])
    requires forall id :: id in s.locks ==> s.locks[id] != ByTxn(x)
    ensures var until := s.rows[tx.id].expires.value;
            Next(Next(s2, TxnValidate(x)), TxnCommit(x)) ==
              s.(log := s.log + [tx.(phase := Validated, validated := s.now, uptime := s.uptime, validatedUntil := until)])
  {
    var done := tx.(phase := Validated, validated := s.now, uptime := s.uptime, validatedUntil := s.rows[tx.id].expires.value);
    assert Next(s2, TxnValidate(x)) == s2.(txns := s2.txns[x := done]);
    assert s2.txns[x := done] - {x} == s.txns;
    assert Freed(s2.locks, ByTxn(x)) == s.locks;
  }

  /** From its very beginning: whoever holds a live lease and is in time can commit, and leaves nothing but its commit. */
  lemma ATransactionCommits(s: State, x: Session, id: AccountId, t: Token, deadline: Time)
    requires x !in s.txns && s.uptime < deadline && Rightful(s, id, t) && forall k :: k in s.locks ==> s.locks[k] != ByTxn(x)
    ensures var until := s.rows[id].expires.value;
            Run(s, [TxnAsk(x, id, t, deadline), TxnLock(x)] + [TxnValidate(x), TxnCommit(x)]) ==
              s.(log := s.log + [Txn(id, t, deadline, Validated, s.now, until, s.now, until, s.uptime)])
  {
    var first, last := [TxnAsk(x, id, t, deadline), TxnLock(x)], [TxnValidate(x), TxnCommit(x)];
    RunConcat(s, first, last);
    RunTwo(s, first[0], first[1]);
    AskedAndLocked(s, x, id, t, deadline);
    RunTwo(Run(s, first), last[0], last[1]);
    ValidatedAndCommitted(s, Run(s, first), x, Txn(id, t, deadline, Open, s.now, s.rows[id].expires.value, 0, 0, 0));
  }
}
