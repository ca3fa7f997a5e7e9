/**
 The mailbox lease (src/email/email_processor.py) and the transaction fence (src/database/sync_fence.py)
 as one step system over the account rows.

 A step is one statement of one session. Locks that outlive a statement are explicit: an open fenced
 transaction holds its account row, an acquisition holds the rows it has taken so far. A statement that
 needs a locked row does not happen while the lock is held. A crash is an abort, or simply no more steps.
 */
module MailboxLease {
  import opened Common

  type AccountId = nat
  type Key = nat       // (host, port, lowercased username): the physical mailbox
  type Token = nat     // uuid4: minted per attempt, never reused
  type Session = nat
  type Time = int

  type Positive = n: int | 0 < n witness 1

  /** sync_job_timeout_seconds + sync_job_cleanup_seconds, whatever they are: no lease outlives its lock time by more. */
  const JOB_CAP: Positive

  datatype Account = Account(key: Key, token: Option<Token>, lockedAt: Option<Time>, expires: Option<Time>)

  type Rows = map<AccountId, Account>

  predicate LiveAt(a: Account, t: Time) { a.expires.Some? && a.expires.value > t }

  predicate Acquirable(a: Account, t: Time) { a.expires.None? || a.expires.value < t }

  function Unleased(a: Account): Account {
    a.(token := None, lockedAt := None, expires := None)
  }

  function Leased(a: Account, t: Token, now: Time, seconds: int): Account {
    a.(token := Some(t), lockedAt := Some(now), expires := Some(now + seconds))
  }

  function Siblings(rows: Rows, key: Key): set<AccountId> {
    set id | id in rows && rows[id].key == key
  }

  function HeldBy(rows: Rows, t: Token): set<AccountId> {
    set id | id in rows && rows[id].token == Some(t)
  }

  /** An acquisition under way: `count` siblings were counted, `left` are to be visited, `taken` are locked. */
  datatype Acquire = Acquire(key: Key, started: Time, seconds: int, count: nat, scanned: bool,
                             left: set<AccountId>, taken: set<AccountId>)

  /** A refresh that has read the clock but does not have the rows yet. */
  datatype Refresh = Refresh(token: Token, asked: Time, seconds: int)

  /** An edit between loading the row and saving it: whether the loaded row showed a lease. */
  datatype Edit = Edit(id: AccountId, sawLease: bool)

  datatype Phase = Asked | Open | Validated

  /** A fenced transaction: `until` is the row's expiry as each check read it. */
  datatype Txn = Txn(id: AccountId, token: Token, deadline: Time, phase: Phase,
                     began: Time, beganUntil: Time, validated: Time, validatedUntil: Time, uptime: Time)

  datatype Holder = ByTxn(x: Session) | ByAcquire(t: Token)

  datatype State = State(
    now: Time,          // the wall clock, taken never to step back
    uptime: Time,       // time.monotonic()
    nextToken: Token,
    nextId: AccountId,
    rows: Rows,
    locks: map<AccountId, Holder>,
    acquires: map<Token, Acquire>,
    refreshes: set<Refresh>,
    edits: map<Session, Edit>,
    txns: map<Session, Txn>,
    log: seq<Txn>,                    // committed fenced transactions
    past: set<(AccountId, Token)>)    // tokens that held a row and no longer do

  const Init: State := State(0, 0, 0, 0, map[], map[], map[], {}, map[], map[], [], {})

  datatype Step =
    | Tick(wall: nat, up: nat)
    | Insert(key: Key)
    | EditLoad(e: Session, id: AccountId)
    | EditSave(e: Session, key: Key)
    | Delete(id: AccountId)
    | AcquireCount(key: Key, seconds: int)
    | AcquireScan(t: Token)
    | AcquireTake(t: Token, id: AccountId)
    | AcquireEnd(t: Token)
    | AcquireAbort(t: Token)
    | RefreshAsk(t: Token, seconds: int)
    | RefreshLand(r: Refresh)
    | Clear(t: Token)     // release_mailbox_lease, and recover_result for a dead worker
    | TxnAsk(x: Session, id: AccountId, t: Token, deadline: Time)
    | TxnLock(x: Session)
    | TxnValidate(x: Session)
    | TxnCommit(x: Session)
    | TxnRollback(x: Session)

  // ---- what each step does ------------------------------------------------------------------

  /** The (row, token) pairs a change of the table ends. */
  function Lost(rows: Rows, rows': Rows): set<(AccountId, Token)> {
    set id | id in rows && rows[id].token.Some? && (id !in rows' || rows'[id].token != rows[id].token)
           :: (id, rows[id].token.value)
  }

  /** New rows, remembering which token stopped holding which row. */
  function WithRows(s: State, rows': Rows): State {
    s.(rows := rows', past := s.past + Lost(s.rows, rows'))
  }

  predicate Unlocked(s: State, ids: set<AccountId>) { ids !! s.locks.Keys }

  /** An edit clears the lease columns only if it loaded them set: writing None over None is no UPDATE. */
  function Edited(a: Account, key: Key, sawLease: bool): Account {
    (if sawLease then Unleased(a) else a).(key := key)
  }

  function Saved(s: State, e: Session, key: Key): State
    requires e in s.edits
  {
    var d := s.edits[e];
    if d.id !in s.rows then s.(edits := s.edits - {e})
    else WithRows(s.(edits := s.edits - {e}), s.rows[d.id := Edited(s.rows[d.id], key, d.sawLease)])
  }

  function Counted(s: State, key: Key, seconds: int): State {
    var capped := Min(seconds, JOB_CAP);
    if capped <= 0 then s
    else s.(acquires := s.acquires[s.nextToken := Acquire(key, s.now, capped, |Siblings(s.rows, key)|, false, {}, {})],
            nextToken := s.nextToken + 1)
  }

  function Scanned(s: State, t: Token): State
    requires t in s.acquires
  {
    var a := s.acquires[t];
    var found := set id | id in s.rows && s.rows[id].key == a.key && Acquirable(s.rows[id], a.started);
    s.(acquires := s.acquires[t := a.(scanned := true, left := found)])
  }

  /** One row of the UPDATE: its WHERE is judged again now that the row is free. */
  function Taken(s: State, t: Token, id: AccountId): State
    requires t in s.acquires
  {
    var a := s.acquires[t];
    if id in s.rows && s.rows[id].key == a.key && Acquirable(s.rows[id], a.started)
    then s.(acquires := s.acquires[t := a.(left := a.left - {id}, taken := a.taken + {id})],
            locks := s.locks[id := ByAcquire(t)])
    else s.(acquires := s.acquires[t := a.(left := a.left - {id})])
  }

  function Freed(locks: map<AccountId, Holder>, h: Holder): map<AccountId, Holder> {
    map id | id in locks && locks[id] != h :: locks[id]
  }

  function Dropped(s: State, t: Token): State {
    s.(acquires := s.acquires - {t}, locks := Freed(s.locks, ByAcquire(t)))
  }

  function TakenRows(rows: Rows, a: Acquire, t: Token): Rows {
    map id | id in rows :: if id in a.taken then Leased(rows[id], t, a.started, a.seconds) else rows[id]
  }

  predicate Complete(a: Acquire) { a.scanned && a.left == {} && |a.taken| == a.count }

  /** `updated != siblings` rolls back, otherwise every row taken is committed at once. */
  function Ended(s: State, t: Token): State
    requires t in s.acquires
  {
    var a := s.acquires[t];
    if Complete(a) then WithRows(Dropped(s, t), TakenRows(s.rows, a, t)) else Dropped(s, t)
  }

  predicate MayRefresh(a: Account, r: Refresh) {
    && a.lockedAt.Some? && a.expires.Some?
    && r.asked < Min(a.expires.value, a.lockedAt.value + JOB_CAP)
  }

  function Refreshed(a: Account, r: Refresh): Account {
    if a.lockedAt.Some? then a.(expires := Some(Min(r.asked + r.seconds, a.lockedAt.value + JOB_CAP))) else a
  }

  function RefreshedRows(rows: Rows, r: Refresh): Rows {
    if forall id :: id in rows && rows[id].token == Some(r.token) ==> MayRefresh(rows[id], r)
    then map id | id in rows :: if rows[id].token == Some(r.token) then Refreshed(rows[id], r) else rows[id]
    else rows
  }

  function ClearedRows(rows: Rows, t: Token): Rows {
    map id | id in rows :: if rows[id].token == Some(t) then Unleased(rows[id]) else rows[id]
  }

  /** `_check`: the deadline, then the conditional UPDATE on the account row. */
  predicate Passes(s: State, x: Txn, at: Time) {
    x.id in s.rows && s.rows[x.id].token == Some(x.token) && LiveAt(s.rows[x.id], at)
  }

  function Closed(s: State, x: Session): State {
    s.(txns := s.txns - {x}, locks := Freed(s.locks, ByTxn(x)))
  }

  function Locked(s: State, x: Session): State
    requires x in s.txns
  {
    var tx := s.txns[x];
    if Passes(s, tx, tx.began)
    then s.(txns := s.txns[x := tx.(phase := Open, beganUntil := s.rows[tx.id].expires.value)],
            locks := s.locks[tx.id := ByTxn(x)])
    else Closed(s, x)
  }

  function Validating(s: State, x: Session): State
    requires x in s.txns
  {
    var tx := s.txns[x];
    if s.uptime < tx.deadline && Passes(s, tx, s.now)
    then s.(txns := s.txns[x := tx.(phase := Validated, validated := s.now, uptime := s.uptime,
                                    validatedUntil := s.rows[tx.id].expires.value)])
    else Closed(s, x)
  }

  function Committed(s: State, x: Session): State
    requires x in s.txns
  {
    Closed(s.(log := s.log + [s.txns[x]]), x)
  }

  predicate In(s: State, x: Session, p: Phase) { x in s.txns && s.txns[x].phase == p }

  /** Whether the step can happen now; a step that cannot happen changes nothing. */
  predicate Enabled(s: State, step: Step) {
    match step
    case Tick(_, _) => true
    case Insert(_) => true
    case EditLoad(e, id) => e !in s.edits && id in s.rows
    case EditSave(e, _) => e in s.edits && Unlocked(s, {s.edits[e].id})
    case Delete(id) => id in s.rows && Unlocked(s, {id})
    case AcquireCount(_, _) => true
    case AcquireScan(t) => t in s.acquires && !s.acquires[t].scanned
    case AcquireTake(t, id) => t in s.acquires && id in s.acquires[t].left && Unlocked(s, {id})
    case AcquireEnd(t) => t in s.acquires && s.acquires[t].scanned && s.acquires[t].left == {}
    case AcquireAbort(t) => t in s.acquires
    case RefreshAsk(_, _) => true
    case RefreshLand(r) => r in s.refreshes && Unlocked(s, HeldBy(s.rows, r.token))
    case Clear(t) => Unlocked(s, HeldBy(s.rows, t))
    case TxnAsk(x, _, _, deadline) => x !in s.txns && s.uptime < deadline
    case TxnLock(x) => In(s, x, Asked) && Unlocked(s, {s.txns[x].id})
    case TxnValidate(x) => In(s, x, Open)
    case TxnCommit(x) => In(s, x, Validated)
    case TxnRollback(x) => x in s.txns
  }

  function Next(s: State, step: Step): State {
    if !Enabled(s, step) then s else
    match step
    case Tick(wall, up) => s.(now := s.now + wall, uptime := s.uptime + up)
    case Insert(key) => s.(rows := s.rows[s.nextId := Account(key, None, None, None)], nextId := s.nextId + 1)
    case EditLoad(e, id) => s.(edits := s.edits[e := Edit(id, s.rows[id].token.Some?)])
    case EditSave(e, key) => Saved(s, e, key)
    case Delete(id) => WithRows(s, s.rows - {id})
    case AcquireCount(key, seconds) => Counted(s, key, seconds)
    case AcquireScan(t) => Scanned(s, t)
    case AcquireTake(t, id) => Taken(s, t, id)
    case AcquireEnd(t) => Ended(s, t)
    case AcquireAbort(t) => Dropped(s, t)
    case RefreshAsk(t, seconds) => s.(refreshes := s.refreshes + {Refresh(t, s.now, seconds)})
    case RefreshLand(r) => WithRows(s.(refreshes := s.refreshes - {r}), RefreshedRows(s.rows, r))
    case Clear(t) => WithRows(s, ClearedRows(s.rows, t))
    case TxnAsk(x, id, t, deadline) => s.(txns := s.txns[x := Txn(id, t, deadline, Asked, s.now, 0, 0, 0, 0)])
    case TxnLock(x) => Locked(s, x)
    case TxnValidate(x) => Validating(s, x)
    case TxnCommit(x) => Committed(s, x)
    case TxnRollback(x) => Closed(s, x)
  }

  /** The steps that write account rows. */
  predicate WritesRows(step: Step) {
    step.Insert? || step.EditSave? || step.Delete? || step.AcquireEnd? || step.RefreshLand? || step.Clear?
  }

  function Run(s: State, steps: seq<Step>): State
    decreases |steps|
  {
    if steps == [] then s else Run(Next(s, steps[0]), steps[1..])
  }
}
