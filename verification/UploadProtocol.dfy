/**
 Outbound upload slots as a step system.

 PUT attempts, sends, drafts, lapsed-lease reclaims and sweeps interleave between any two database
 statements and any two file operations, and any of them may crash. `Next` performs one step; a step
 whose actor is not in the right place changes nothing, so a run is just a sequence of steps and
 "in every interleaving" is a quantification over sequences.
 */
module UploadProtocol {
  import opened Common
  import opened UploadRows

  // ---- actors -------------------------------------------------------------------------------

  /** Where `store_upload_stream` stands, for one attempt. */
  datatype PutPhase =
    | Claimed       // the claim is won, the scratch file is not open yet
    | Streaming     // the .part file is open
    | Promoted      // the row says 'stored', os.replace has not run
    | RollingBack   // os.replace failed
    | Failing       // in the except block, own file not unlinked yet
    | HandingBack   // own file unlinked
    | PutEnded      // finished, crashed or refused

  /** One PUT attempt; its lease token is its key in State.puts. */
  datatype Put = Put(slot: SlotId, phase: PutPhase, streamed: Bytes)

  datatype SendKind = Mail | Draft

  datatype SendPhase =
    | Claiming     // taking the named slots in order
    | Loading      // reading payloads back
    | Handed       // the transport was called and has not answered
    | Settling     // moving the slots out of 'sending'
    | SendEnded

  /**
   One send_mail or create_draft. `tokens[i]` is the lease token of the claim on `slots[i]`;
   `settled` counts the slots the current settlement has been through.
   `handed` and `verdict` are history: the message was given to a transport (or, for a draft, to the
   mailbox), and what that reported, if it has.
   */
  datatype Send = Send(
    kind: SendKind,
    slots: seq<SlotId>,
    tokens: seq<Token>,
    payloads: seq<Bytes>,
    phase: SendPhase,
    outcome: Outcome,
    handed: bool,
    verdict: Option<Report>,
    settled: nat)

  /** A reclaim between its SELECT of the token and its conditional UPDATE. */
  datatype PendingReclaim = PendingReclaim(slot: SlotId, from: SlotState, read: Option<Token>)

  /** The clock, the table, the disk, and everybody at work on them except the sends. */
  datatype Volume = Volume(
    now: Time,
    nextSlot: SlotId,
    nextToken: Token,
    rows: Table,
    dest: map<SlotId, Bytes>,         // the final payload files
    parts: map<Token, Bytes>,         // the attempts' .part files
    puts: map<Token, Put>,
    reclaims: set<PendingReclaim>,
    discards: set<Token>,             // .part files somebody is about to truncate and unlink
    frees: set<SlotId>,               // terminal slots whose payload somebody is about to unlink
    sweeps: map<nat, set<SlotId>>,    // the rows each running sweep pass selected
    // histories
    winner: map<SlotId, Token>,       // the attempt whose promotion the slot's row records
    landed: set<SlotId>,              // slots whose os.replace succeeded
    cut: map<Token, nat>,             // attempts whose .part somebody else truncated: the bytes streamed by then
    condemned: set<SlotId>)           // slots some sweep has selected

  datatype State = State(vol: Volume, sends: map<nat, Send>)

  const Init: State := State(Volume(0, 0, 0, map[], map[], map[], map[], {}, {}, {}, map[], map[], {}, map[], {}), map[])

  // ---- steps --------------------------------------------------------------------------------

  datatype PutStep =
    | Open
    | Write(chunk: Bytes)
    | RenewLease
    | GiveUp                    // 413, mismatch, lost connection
    | PromoteRow
    | ReplaceFile(ok: bool)
    | Rollback
    | UnlinkOwn
    | HandBackRow
    | CrashPut

  datatype SendStep =
    | ClaimNext
    | Refuse                    // any refusal before the transport
    | LoadNext
    | Hand
    | Answer(report: Report)
    | LoseAnswer                // cancelled while the transport was working
    | SettleNext
    | SettleBreaks              // the database refuses; the rest is left in 'sending'
    | SettleAgain               // an error after a draft's own settlement
    | CrashSend

  datatype HouseStep =
    | ReclaimRead(slot: SlotId, from: SlotState)
    | ReclaimUpdate(reclaim: PendingReclaim)
    | ReclaimCrash(reclaim: PendingReclaim)
    | TruncatePart(part: Token)
    | UnlinkPart(part: Token)
    | FreeAgain(slot: SlotId)   // the sweep's net for retained payloads
    | FreeUnlink(slot: SlotId)
    | FreeClear(slot: SlotId)

  datatype SweepStep =
    | Select(doomed: set<SlotId>)
    | UnlinkPayload(slot: SlotId)
    | GlobParts(slot: SlotId)
    | Commit
    | CrashSweep

  datatype Step =
    | Tick(seconds: nat)
    | Begin(owner: nat, declared: Option<nat>, ttl: Time)
    | PutClaim(slot: SlotId)
    | SendStart(send: nat, kind: SendKind, slots: seq<SlotId>)
    | OfPut(put: Token, putStep: PutStep)
    | OfSend(send: nat, sendStep: SendStep)
    | OfHouse(houseStep: HouseStep)
    | OfSweep(sweep: nat, sweepStep: SweepStep)

  /** The hole a write beyond the end of a file leaves behind. */
  function Zeros(n: nat): Bytes { seq(n, i => 0) }

  /** What the file holds after a write at `offset`: a truncated file gets a hole of zero bytes. */
  function WriteAt(file: Bytes, offset: nat, chunk: Bytes): Bytes {
    if |file| >= offset then file[..offset] + chunk
    else file + Zeros(offset - |file|) + chunk
  }

  predicate PutIn(v: Volume, t: Token, phase: PutPhase) { t in v.puts && v.puts[t].phase == phase }

  function SetPut(v: Volume, t: Token, phase: PutPhase): Volume
    requires t in v.puts
  {
    v.(puts := v.puts[t := v.puts[t].(phase := phase)])
  }

  /** The distinct-named slot list every send starts from (dict.fromkeys). */
  predicate NoRepeats(slots: seq<SlotId>) { forall i, j :: 0 <= i < j < |slots| ==> slots[i] != slots[j] }

  /** `load_uploads` on one slot: the payload it accepts, if any. */
  function Loaded(v: Volume, slot: SlotId): Option<Bytes> {
    if slot in v.rows && v.rows[slot].path && slot in v.dest
       && (v.rows[slot].size.Some? ==> |v.dest[slot]| == v.rows[slot].size.value)
       && (v.rows[slot].digest.Some? ==> Digest(v.dest[slot]) == v.rows[slot].digest.value)
    then Some(v.dest[slot]) else None
  }

  // ---- the steps of one PUT -----------------------------------------------------------------

  function Receive(v: Volume, slot: SlotId): Volume {
    if !Matches(v.rows, slot, Pending, None) then v
    else v.(rows := ClaimReceive(v.rows, slot, v.nextToken, v.now),
            puts := v.puts[v.nextToken := Put(slot, Claimed, [])],
            nextToken := v.nextToken + 1)
  }

  function Opened(v: Volume, t: Token): Volume {
    if !PutIn(v, t, Claimed) then v else SetPut(v, t, Streaming).(parts := v.parts[t := []])
  }

  function Written(v: Volume, t: Token, chunk: Bytes): Volume {
    if !PutIn(v, t, Streaming) || chunk == [] then v
    else
      var p := v.puts[t];
      v.(puts := v.puts[t := p.(streamed := p.streamed + chunk)],
         parts := if t in v.parts then v.parts[t := WriteAt(v.parts[t], |p.streamed|, chunk)] else v.parts)
  }

  function Renewed(v: Volume, t: Token): Volume {
    if !PutIn(v, t, Streaming) then v
    else if Matches(v.rows, v.puts[t].slot, Receiving, Some(t))
    then v.(rows := Renew(v.rows, v.puts[t].slot, t, |v.puts[t].streamed|, v.now))
    else SetPut(v, t, Failing)
  }

  function GivenUp(v: Volume, t: Token): Volume {
    if PutIn(v, t, Claimed) || PutIn(v, t, Streaming) then SetPut(v, t, Failing) else v
  }

  function Promoting(v: Volume, t: Token): Volume {
    if !PutIn(v, t, Streaming) then v
    else if Matches(v.rows, v.puts[t].slot, Receiving, Some(t))
    then
      var p := v.puts[t];
      SetPut(v, t, Promoted).(
        rows := Promote(v.rows, p.slot, t, |p.streamed|, Digest(p.streamed)),
        winner := v.winner[p.slot := t])
    else SetPut(v, t, Failing)
  }

  function Replacing(v: Volume, t: Token, ok: bool): Volume {
    if !PutIn(v, t, Promoted) then v
    else if ok && t in v.parts
    then SetPut(v, t, PutEnded).(dest := v.dest[v.puts[t].slot := v.parts[t]], parts := v.parts - {t},
                                 landed := v.landed + {v.puts[t].slot})
    else SetPut(v, t, RollingBack)
  }

  function RolledBack(v: Volume, t: Token): Volume {
    if !PutIn(v, t, RollingBack) then v
    else
      var slot := v.puts[t].slot;
      SetPut(v, t, Failing).(
        rows := Unpromote(v.rows, slot),
        winner := if Matches(v.rows, slot, Stored, None) then v.winner - {slot} else v.winner)
  }

  function Unlinking(v: Volume, t: Token): Volume {
    if !PutIn(v, t, Failing) then v else SetPut(v, t, HandingBack).(parts := v.parts - {t})
  }

  function HandedBack(v: Volume, t: Token): Volume {
    if !PutIn(v, t, HandingBack) then v
    else SetPut(v, t, PutEnded).(rows := HandBack(v.rows, v.puts[t].slot, t))
  }

  function PutCrashed(v: Volume, t: Token): Volume {
    if t in v.puts then SetPut(v, t, PutEnded) else v
  }

  // ---- reclaim, discard, free ---------------------------------------------------------------

  function ReclaimSelected(v: Volume, slot: SlotId, from: SlotState): Volume {
    if !InFlight(from) then v
    else
      var read := if slot in v.rows && v.rows[slot].state == from then v.rows[slot].token else None;
      v.(reclaims := v.reclaims + {PendingReclaim(slot, from, read)})
  }

  function Reclaimed(v: Volume, r: PendingReclaim): Volume {
    if r !in v.reclaims || !InFlight(r.from) then v
    else if !Lapsed(v.rows, r.slot, r.from, v.now) then v.(reclaims := v.reclaims - {r})
    else v.(reclaims := v.reclaims - {r},
            rows := Reclaim(v.rows, r.slot, r.from, v.now),
            discards := if r.from == Receiving && r.read.Some? then v.discards + {r.read.value} else v.discards,
            frees := if r.from == Sending then v.frees + {r.slot} else v.frees)
  }

  function Truncated(v: Volume, t: Token): Volume {
    if t !in v.discards || t !in v.parts || t !in v.puts then v
    else v.(parts := v.parts[t := []], cut := v.cut[t := |v.puts[t].streamed|])
  }

  function Unlinked(v: Volume, t: Token): Volume {
    if t !in v.discards then v else v.(parts := v.parts - {t}, discards := v.discards - {t})
  }

  function FreeingAgain(v: Volume, slot: SlotId): Volume {
    if slot in v.rows && Terminal(v.rows[slot].state) then v.(frees := v.frees + {slot}) else v
  }

  function PayloadUnlinked(v: Volume, slot: SlotId): Volume {
    if slot in v.frees then v.(dest := v.dest - {slot}) else v
  }

  function PathCleared(v: Volume, slot: SlotId): Volume {
    if slot in v.frees then v.(rows := ClearPath(v.rows, slot), frees := v.frees - {slot}) else v
  }

  // ---- the sweep ----------------------------------------------------------------------------

  function Selected(v: Volume, w: nat, doomed: set<SlotId>): Volume {
    if w in v.sweeps || !(forall id :: id in doomed ==> id in v.rows && Actionable(v.rows[id], v.now)) then v
    else v.(sweeps := v.sweeps[w := doomed], condemned := v.condemned + doomed)
  }

  function SweptFile(v: Volume, w: nat, slot: SlotId): Volume {
    if w in v.sweeps && slot in v.sweeps[w] then v.(dest := v.dest - {slot}) else v
  }

  function SweptParts(v: Volume, w: nat, slot: SlotId): Volume {
    if w in v.sweeps && slot in v.sweeps[w]
    then v.(discards := v.discards + (set t | t in v.puts && v.puts[t].slot == slot)) else v
  }

  function SweptRows(v: Volume, w: nat): Volume {
    if w in v.sweeps then v.(rows := v.rows - v.sweeps[w], sweeps := v.sweeps - {w}) else v
  }

  function NextPut(v: Volume, t: Token, step: PutStep): Volume {
    match step
    case Open => Opened(v, t)
    case Write(chunk) => Written(v, t, chunk)
    case RenewLease => Renewed(v, t)
    case GiveUp => GivenUp(v, t)
    case PromoteRow => Promoting(v, t)
    case ReplaceFile(ok) => Replacing(v, t, ok)
    case Rollback => RolledBack(v, t)
    case UnlinkOwn => Unlinking(v, t)
    case HandBackRow => HandedBack(v, t)
    case CrashPut => PutCrashed(v, t)
  }

  function NextHouse(v: Volume, step: HouseStep): Volume {
    match step
    case ReclaimRead(slot, from) => ReclaimSelected(v, slot, from)
    case ReclaimUpdate(r) => Reclaimed(v, r)
    case ReclaimCrash(r) => v.(reclaims := v.reclaims - {r})
    case TruncatePart(t) => Truncated(v, t)
    case UnlinkPart(t) => Unlinked(v, t)
    case FreeAgain(slot) => FreeingAgain(v, slot)
    case FreeUnlink(slot) => PayloadUnlinked(v, slot)
    case FreeClear(slot) => PathCleared(v, slot)
  }

  function NextSweep(v: Volume, w: nat, step: SweepStep): Volume {
    match step
    case Select(doomed) => Selected(v, w, doomed)
    case UnlinkPayload(slot) => SweptFile(v, w, slot)
    case GlobParts(slot) => SweptParts(v, w, slot)
    case Commit => SweptRows(v, w)
    case CrashSweep => v.(sweeps := v.sweeps - {w})
  }

  function Begun(v: Volume, owner: nat, declared: Option<nat>, ttl: Time): Volume {
    v.(rows := v.rows[v.nextSlot := NewRow(owner, declared, v.now + ttl)], nextSlot := v.nextSlot + 1)
  }

  /** A send's claim on one slot. */
  function TakenForSend(v: Volume, slot: SlotId): Volume {
    v.(rows := Claim(v.rows, slot, Stored, Sending, None, v.nextToken, v.now), nextToken := v.nextToken + 1)
  }

  /** One slot's settlement; a retirement this caller won also frees the payload. */
  function SettledSlot(v: Volume, slot: SlotId, outcome: Outcome): Volume {
    v.(rows := Settle(v.rows, slot, outcome),
       frees := if Matches(v.rows, slot, Sending, None) && outcome != Failed then v.frees + {slot} else v.frees)
  }

  // ---- the steps of one send or draft -------------------------------------------------------

  predicate SendIn(s: State, a: nat, phase: SendPhase) { a in s.sends && s.sends[a].phase == phase }

  function SetSend(s: State, a: nat, send: Send): State { s.(sends := s.sends[a := send]) }

  function Started(s: State, a: nat, kind: SendKind, slots: seq<SlotId>): State {
    if a in s.sends || !NoRepeats(slots) then s
    else SetSend(s, a, Send(kind, slots, [], [], Claiming, Failed, false, None, 0))
  }

  function ClaimingNext(s: State, a: nat): State {
    if !SendIn(s, a, Claiming) then s
    else
      var x := s.sends[a];
      if |x.tokens| >= |x.slots| then SetSend(s, a, x.(phase := Loading))
      else
        var slot := x.slots[|x.tokens|];
        if Matches(s.vol.rows, slot, Stored, None) && s.vol.rows[slot].path
        then State(TakenForSend(s.vol, slot), s.sends[a := x.(tokens := x.tokens + [s.vol.nextToken])])
        else SetSend(s, a, x.(phase := Settling))
  }

  /** The payload the next load of `x` would accept. */
  function NextPayload(s: State, x: Send): Option<Bytes> {
    if |x.payloads| < |x.slots| then Loaded(s.vol, x.slots[|x.payloads|]) else None
  }

  /**
   The steps of a send that touch no row. Once the audit is committed and the transport is called, a
   mail's outcome is 'unknown' until the sender reports; a draft's stays 'failed', because a draft is
   filed and not delivered.
   */
  function Advanced(x: Send, step: SendStep, loaded: Option<Bytes>): Send {
    match step
    case Refuse => if x.phase == Claiming || x.phase == Loading then x.(phase := Settling) else x
    case LoadNext =>
      if x.phase != Loading || |x.payloads| >= |x.slots| then x
      else if loaded.Some? then x.(payloads := x.payloads + [loaded.value])
      else x.(phase := Settling)
    case Hand =>
      if x.phase != Loading || |x.payloads| != |x.slots| then x
      else x.(phase := Handed, handed := true, outcome := if x.kind == Mail then Unknown else Failed)
    case Answer(report) =>
      if x.phase != Handed then x
      else x.(phase := Settling, verdict := Some(report),
              outcome := if x.kind == Mail then DeliveryOutcome(report)
                         else if report.success then Sent else Failed)
    case LoseAnswer => if x.phase == Handed then x.(phase := Settling) else x
    case SettleBreaks => if x.phase == Settling then x.(phase := SendEnded) else x
    case SettleAgain =>
      if x.phase == SendEnded && x.kind == Draft && x.outcome == Sent
      then x.(phase := Settling, outcome := Failed, settled := 0) else x
    case CrashSend => x.(phase := SendEnded)
    case ClaimNext => x
    case SettleNext => x
  }

  function SettlingNext(s: State, a: nat): State {
    if !SendIn(s, a, Settling) then s
    else
      var x := s.sends[a];
      if x.settled >= |x.tokens| || x.settled >= |x.slots| then SetSend(s, a, x.(phase := SendEnded))
      else
        var slot := x.slots[x.settled];
        State(SettledSlot(s.vol, slot, x.outcome), s.sends[a := x.(settled := x.settled + 1)])
  }

  function NextSend(s: State, a: nat, step: SendStep): State {
    if a !in s.sends then s
    else if step.ClaimNext? then ClaimingNext(s, a)
    else if step.SettleNext? then SettlingNext(s, a)
    else SetSend(s, a, Advanced(s.sends[a], step, NextPayload(s, s.sends[a])))
  }

  function Next(s: State, step: Step): State {
    match step
    case Tick(d) => s.(vol := s.vol.(now := s.vol.now + d))
    case Begin(owner, declared, ttl) => s.(vol := Begun(s.vol, owner, declared, ttl))
    case PutClaim(slot) => s.(vol := Receive(s.vol, slot))
    case SendStart(a, kind, slots) => Started(s, a, kind, slots)
    case OfPut(t, ps) => s.(vol := NextPut(s.vol, t, ps))
    case OfSend(a, ss) => NextSend(s, a, ss)
    case OfHouse(hs) => s.(vol := NextHouse(s.vol, hs))
    case OfSweep(w, ws) => s.(vol := NextSweep(s.vol, w, ws))
  }

  function Run(s: State, steps: seq<Step>): State
    decreases |steps|
  {
    if steps == [] then s else Run(Next(s, steps[0]), steps[1..])
  }

  lemma {:induction false} RunConcat(s: State, first: seq<Step>, then_: seq<Step>)
    ensures Run(s, first + then_) == Run(Run(s, first), then_)
    decreases |first|
  {
    if first == [] {
      assert first + then_ == then_;
    } else {
      assert (first + then_)[1..] == first[1..] + then_;
      RunConcat(Next(s, first[0]), first[1..], then_);
    }
  }

  lemma RunOfThree(s: State, a: Step, b: Step, c: Step)
    ensures Run(s, [a, b, c]) == Next(Next(Next(s, a), b), c)
  {
    var s1 := Next(s, a);
    assert [a, b, c][1..] == [b, c] && [b, c][1..] == [c] && [c][1..] == [];
    assert Run(s, [a, b, c]) == Run(s1, [b, c]) == Run(Next(s1, b), [c]);
    assert Run(Next(s1, b), [c]) == Run(Next(Next(s1, b), c), []);
  }
}
