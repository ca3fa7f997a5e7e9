/**
 One transport call per idempotency key: `send_mail` of src/services/mail_service.py, the append-only audit
 of src/models/send_audit.py and the account deletion of src/services/account_deletion.py, interleaved
 statement by statement.
 */
module SendLedger {
  import opened Common
  import opened UploadRows

  type SendId = nat
  type AccountId = nat
  type Owner = nat
  type Key = string

  /** How long a pending audit holds up the deletion of its account, in seconds. */
  const IN_FLIGHT_SEND_WINDOW: int := 1800

  /** A row of `send_audits`; `sender` is the send that wrote it. Its primary key here is (owner, key), which is unique. */
  datatype Audit = Audit(account: Option<AccountId>, hash: nat, status: string, created: Time, sender: SendId)

  type Audits = map<(Owner, Key), Audit>

  datatype Verdict = GoOn | HashConflict | Replay | NotRetried(status: string)

  /** The lookup of a prior send under the same key. */
  function Prior(audits: Audits, owner: Owner, key: Key, hash: nat): Verdict {
    if (owner, key) !in audits then GoOn
    else if audits[(owner, key)].hash != hash then HashConflict
    else if audits[(owner, key)].status == "sent" then Replay
    else NotRetried(audits[(owner, key)].status)
  }

  /**
   Begun: nothing read yet. Claiming: no prior send was found, slots are being claimed. Inserted: the
   audit is written but not committed. Recorded: it is. Calling: the message is with a transport.
   */
  datatype Phase = Begun | Claiming | Inserted | Recorded | Calling | Settling | Closed | Crashed

  datatype Send = Send(owner: Owner, account: AccountId, key: Key, hash: nat, slots: seq<SlotId>,
                       phase: Phase, claimed: nat, settled: nat, outcome: Outcome, began: Time)

  datatype Deletion = Locked(account: AccountId) | Checked(account: AccountId, at: Time)

  datatype Call = Call(owner: Owner, key: Key, sender: SendId)

  datatype State = State(
    now: Time,
    nextAccount: AccountId,
    accounts: map<AccountId, Owner>,
    audits: Audits,
    sends: map<SendId, Send>,
    deletions: map<nat, Deletion>,
    slots: map<SlotId, SlotState>,
    swept: set<SlotId>,           // slots that were deleted; an id is never used again
    calls: seq<Call>)             // the transport calls, in order

  const Init: State := State(0, 0, map[], map[], map[], map[], map[], {}, [])

  datatype SendStep =
    | Begin(owner: Owner, account: AccountId, key: Key, hash: nat, slots: seq<SlotId>)
    | LookUp
    | ClaimNext
    | Insert(began: Time)   // when its transaction began, which is what created_at records
    | Record
    | Transport
    | Reported(report: Report, written: bool)
    | Fail                  // an exception or a cancellation, wherever the send is
    | SettleNext
    | Crash

  datatype DeletionStep = LockAccount(owner: Owner, account: AccountId) | CheckAccount | DeleteAccount | GiveUp

  datatype WorldStep =
    | Tick(seconds: nat)
    | AddAccount(owner: Owner)
    | Fill(slot: SlotId)    // an upload completes
    | Lapse(slot: SlotId)   // the reclaimer retires a lapsed 'sending' slot
    | Sweep(slot: SlotId)

  datatype Step = OfSend(a: SendId, send: SendStep) | OfDeletion(d: nat, deletion: DeletionStep) | OfWorld(world: WorldStep)

  // ---- locks --------------------------------------------------------------------------------

  /** A deletion holds the account row FOR UPDATE. */
  predicate HeldForDeletion(s: State, account: AccountId) {
    exists d :: d in s.deletions && s.deletions[d].account == account
  }

  predicate Inserting(x: Send) { x.phase == Inserted }

  /** An uncommitted audit holds its account row against deletion, through the foreign key. */
  predicate HeldByInsert(s: State, account: AccountId) {
    exists a :: a in s.sends && Inserting(s.sends[a]) && s.sends[a].account == account
  }

  /** An uncommitted audit holds its key against any other insert of it. */
  predicate KeyReserved(s: State, owner: Owner, key: Key) {
    exists a :: a in s.sends && Inserting(s.sends[a]) && s.sends[a].owner == owner && s.sends[a].key == key
  }

  predicate InFlightSend(x: Audit, account: AccountId, since: Time) {
    x.account == Some(account) && x.status == "pending" && x.created >= since
  }

  predicate AnyInFlight(audits: Audits, account: AccountId, since: Time) {
    exists k :: k in audits && InFlightSend(audits[k], account, since)
  }

  // ---- what each step does ------------------------------------------------------------------

  function Put(s: State, a: SendId, x: Send): State {
    s.(sends := s.sends[a := x])
  }

  /** The except block: the session is rolled back and the slots settle with what is known. */
  function Failing(x: Send): Send { x.(phase := Settling) }

  function ClaimedNext(s: State, a: SendId): State
    requires a in s.sends && s.sends[a].claimed < |s.sends[a].slots|
  {
    var x := s.sends[a];
    var slot := x.slots[x.claimed];
    if slot in s.slots && s.slots[slot] == Stored
    then Put(s, a, x.(claimed := x.claimed + 1)).(slots := s.slots[slot := Sending])
    else Put(s, a, Failing(x))
  }

  /** The INSERT: refused if the account is gone or the key is taken. */
  function InsertedAudit(s: State, a: SendId, began: Time): State
    requires a in s.sends
  {
    var x := s.sends[a];
    if x.account in s.accounts && (x.owner, x.key) !in s.audits
    then Put(s, a, x.(phase := Inserted, began := began))
    else Put(s, a, Failing(x))
  }

  function RecordedAudit(s: State, a: SendId): State
    requires a in s.sends
  {
    var x := s.sends[a];
    Put(s, a, x.(phase := Recorded)).(audits := s.audits[(x.owner, x.key) := Audit(Some(x.account), x.hash, "pending", x.began, a)])
  }

  function Called(s: State, a: SendId): State
    requires a in s.sends
  {
    var x := s.sends[a];
    Put(s, a, x.(phase := Calling, outcome := Unknown)).(calls := s.calls + [Call(x.owner, x.key, a)])
  }

  function StatusOf(r: Report): string {
    if r.success then "sent" else if r.delivery.Some? then r.delivery.value else "failed"
  }

  /** The sender's report; writing it to the audit may itself fail. */
  function Answered(s: State, a: SendId, r: Report, written: bool): State
    requires a in s.sends
  {
    var x := s.sends[a];
    var s' := Put(s, a, x.(phase := Settling, outcome := DeliveryOutcome(r)));
    if written && (x.owner, x.key) in s.audits
    then s'.(audits := s.audits[(x.owner, x.key) := s.audits[(x.owner, x.key)].(status := StatusOf(r))])
    else s'
  }

  /** One slot of the settlement: not fenced, but only a slot still 'sending' moves. */
  function SettledNext(s: State, a: SendId): State
    requires a in s.sends && s.sends[a].settled < |s.sends[a].slots|
  {
    var x := s.sends[a];
    var slot := x.slots[x.settled];
    Put(s, a, x.(settled := x.settled + 1)).(
      slots := if slot in s.slots && s.slots[slot] == Sending then s.slots[slot := SettledState(x.outcome)] else s.slots)
  }

  /** The deletion: audits lose the account, the account row goes, the lock with it. */
  function Deleted(s: State, d: nat): State
    requires d in s.deletions
  {
    var account := s.deletions[d].account;
    s.(accounts := s.accounts - {account}, deletions := s.deletions - {d},
       audits := map k | k in s.audits :: if s.audits[k].account == Some(account)
                                          then s.audits[k].(account := None) else s.audits[k])
  }

  predicate At(s: State, a: SendId, p: Phase) { a in s.sends && s.sends[a].phase == p }

  predicate Running(x: Send) { x.phase !in {Settling, Closed, Crashed} }

  predicate SendEnabled(s: State, a: SendId, step: SendStep) {
    match step
    case Begin(_, _, _, _, slots) => a !in s.sends && Distinct(slots)
    case LookUp => At(s, a, Begun)
    case ClaimNext => At(s, a, Claiming) && s.sends[a].claimed < |s.sends[a].slots|
    case Insert(began) =>
      && began <= s.now && At(s, a, Claiming) && s.sends[a].claimed == |s.sends[a].slots|
      && !HeldForDeletion(s, s.sends[a].account) && !KeyReserved(s, s.sends[a].owner, s.sends[a].key)
    case Record => At(s, a, Inserted)
    case Transport => At(s, a, Recorded)
    case Reported(_, _) => At(s, a, Calling)
    case Fail => a in s.sends && Running(s.sends[a])
    case SettleNext => At(s, a, Settling)
    case Crash => a in s.sends
  }

  function SendNext(s: State, a: SendId, step: SendStep): State
    requires SendEnabled(s, a, step)
  {
    match step
    case Begin(owner, account, key, hash, slots) => Put(s, a, Send(owner, account, key, hash, slots, Begun, 0, 0, Failed, s.now))
    case LookUp =>
      var x := s.sends[a];
      Put(s, a, x.(phase := if Prior(s.audits, x.owner, x.key, x.hash) == GoOn then Claiming else Closed))
    case ClaimNext => ClaimedNext(s, a)
    case Insert(began) => InsertedAudit(s, a, began)
    case Record => RecordedAudit(s, a)
    case Transport => Called(s, a)
    case Reported(report, written) => Answered(s, a, report, written)
    case Fail => Put(s, a, Failing(s.sends[a]))
    case SettleNext =>
      if s.sends[a].settled < Min(s.sends[a].claimed, |s.sends[a].slots|) then SettledNext(s, a)
      else Put(s, a, s.sends[a].(phase := Closed))
    case Crash => Put(s, a, s.sends[a].(phase := Crashed))
  }

  predicate DeletionEnabled(s: State, d: nat, step: DeletionStep) {
    match step
    case LockAccount(owner, account) =>
      && d !in s.deletions && account in s.accounts && s.accounts[account] == owner
      && !HeldForDeletion(s, account) && !HeldByInsert(s, account)
    case CheckAccount => d in s.deletions && s.deletions[d].Locked?
    case DeleteAccount => d in s.deletions && s.deletions[d].Checked?
    case GiveUp => d in s.deletions
  }

  function DeletionNext(s: State, d: nat, step: DeletionStep): State
    requires DeletionEnabled(s, d, step)
  {
    match step
    case LockAccount(owner, account) => s.(deletions := s.deletions[d := Locked(account)])
    case CheckAccount =>
      var account := s.deletions[d].account;
      if AnyInFlight(s.audits, account, s.now - IN_FLIGHT_SEND_WINDOW)
      then s.(deletions := s.deletions - {d})
      else s.(deletions := s.deletions[d := Checked(account, s.now)])
    case DeleteAccount => Deleted(s, d)
    case GiveUp => s.(deletions := s.deletions - {d})
  }

  function WorldNext(s: State, step: WorldStep): State {
    match step
    case Tick(seconds) => s.(now := s.now + seconds)
    case AddAccount(owner) => s.(accounts := s.accounts[s.nextAccount := owner], nextAccount := s.nextAccount + 1)
    case Fill(slot) => if slot in s.slots || slot in s.swept then s else s.(slots := s.slots[slot := Stored])
    case Lapse(slot) => if slot in s.slots && s.slots[slot] == Sending then s.(slots := s.slots[slot := SendUnknown]) else s
    case Sweep(slot) => if slot in s.slots then s.(slots := s.slots - {slot}, swept := s.swept + {slot}) else s
  }

  /** One statement of one actor; one that cannot happen now changes nothing. */
  function Next(s: State, step: Step): State {
    match step
    case OfSend(a, send) => if SendEnabled(s, a, send) then SendNext(s, a, send) else s
    case OfDeletion(d, deletion) => if DeletionEnabled(s, d, deletion) then DeletionNext(s, d, deletion) else s
    case OfWorld(world) => WorldNext(s, world)
  }

  function Run(s: State, steps: seq<Step>): State
    decreases |steps|
  {
    if steps == [] then s else Run(Next(s, steps[0]), steps[1..])
  }
}
