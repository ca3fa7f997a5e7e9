/** A send that nothing gets in the way of: from its request to the last slot of its settlement. */
module SendDelivery {
  import opened Common
  import opened UploadRows
  import opened SendLedger
  import opened SendOnce

  function Again(a: SendId, step: SendStep, n: nat): seq<Step> {
    if n == 0 then [] else [OfSend(a, step)] + Again(a, step, n - 1)
  }

  lemma {:induction false} RunAppend(s: State, first: seq<Step>, second: seq<Step>)
    ensures Run(s, first + second) == Run(Run(s, first), second)
    decreases |first|
  {
    if first == [] {
      assert first + second == second;
    } else {
      assert (first + second)[1..] == first[1..] + second;
      RunAppend(Next(s, first[0]), first[1..], second);
    }
  }

  lemma RunOne(s: State, step: Step)
    ensures Run(s, [step]) == Next(s, step)
  {
    assert Run(s, [step]) == Run(Next(s, step), []);
  }

  /** The slots of `ids` have moved from one state to another, and no other slot has. */
  predicate Moved(before: map<SlotId, SlotState>, after: map<SlotId, SlotState>, ids: seq<SlotId>, to: SlotState) {
    && after.Keys == before.Keys
    && forall slot :: slot in before ==> after[slot] == (if slot in ids then to else before[slot])
  }

  predicate AllIn(slots: map<SlotId, SlotState>, ids: seq<SlotId>, state: SlotState) {
    forall i :: 0 <= i < |ids| ==> ids[i] in slots && slots[ids[i]] == state
  }

  /** Only one send and the slots have changed. */
  predicate OnlyThis(s: State, s': State, a: SendId) {
    a in s'.sends && s' == s.(sends := s.sends[a := s'.sends[a]], slots := s'.slots)
  }

  lemma MovedOn(before: map<SlotId, SlotState>, after: map<SlotId, SlotState>, ids: seq<SlotId>, state: SlotState, to: SlotState)
    requires ids != [] && Distinct(ids) && AllIn(before, ids, state)
    requires Moved(before[ids[0] := to], after, ids[1..], to)
    ensures Moved(before, after, ids, to)
  {
    assert ids == [ids[0]] + ids[1..];
    assert ids[0] in before;
  }

  lemma RestIn(slots: map<SlotId, SlotState>, ids: seq<SlotId>, state: SlotState, to: SlotState)
    requires ids != [] && Distinct(ids) && AllIn(slots, ids, state)
    ensures Distinct(ids[1..]) && AllIn(slots[ids[0] := to], ids[1..], state)
  {
    forall i, j | 0 <= i < j < |ids[1..]| ensures ids[1..][i] != ids[1..][j] { assert ids[i + 1] != ids[j + 1]; }
    forall i | 0 <= i < |ids[1..]| ensures ids[1..][i] in slots && slots[ids[1..][i]] == state && ids[1..][i] != ids[0] {
      assert ids[1..][i] == ids[i + 1];
    }
  }

  lemma OneClaim(s: State, a: SendId)
    requires At(s, a, Claiming) && s.sends[a].claimed < |s.sends[a].slots|
    requires var x := s.sends[a]; x.slots[x.claimed] in s.slots && s.slots[x.slots[x.claimed]] == Stored
    ensures var x := s.sends[a];
            Next(s, OfSend(a, ClaimNext)) ==
              s.(sends := s.sends[a := x.(claimed := x.claimed + 1)], slots := s.slots[x.slots[x.claimed] := Sending])
  {
  }

  lemma RunAgain(s: State, a: SendId, step: SendStep, n: nat)
    requires n > 0
    ensures Run(s, Again(a, step, n)) == Run(Next(s, OfSend(a, step)), Again(a, step, n - 1))
  {
    assert Again(a, step, n)[1..] == Again(a, step, n - 1);
  }

  /** The send has every slot it had not claimed yet, and nothing else has changed. */
  predicate TookAll(s: State, s': State, a: SendId)
    requires a in s.sends && s.sends[a].claimed <= |s.sends[a].slots|
  {
    var x := s.sends[a];
    && OnlyThis(s, s', a) && s'.sends[a] == x.(claimed := |x.slots|)
    && Moved(s.slots, s'.slots, x.slots[x.claimed..], Sending)
  }

  lemma NoneToTake(s: State, a: SendId)
    requires a in s.sends && s.sends[a].claimed == |s.sends[a].slots|
    ensures TookAll(s, s, a)
  {
    assert s.sends[a].slots[s.sends[a].claimed..] == [];
  }

  lemma OneMoreTaken(s: State, s1: State, s': State, a: SendId)
    requires a in s.sends && s.sends[a].claimed < |s.sends[a].slots|
    requires var x := s.sends[a]; Distinct(x.slots[x.claimed..]) && AllIn(s.slots, x.slots[x.claimed..], Stored)
    requires var x := s.sends[a];
             s1 == s.(sends := s.sends[a := x.(claimed := x.claimed + 1)], slots := s.slots[x.slots[x.claimed] := Sending])
    requires TookAll(s1, s', a)
    ensures TookAll(s, s', a)
  {
    var x := s.sends[a];
    assert x.slots[x.claimed..][0] == x.slots[x.claimed] && x.slots[x.claimed..][1..] == x.slots[x.claimed + 1..];
    MovedOn(s.slots, s'.slots, x.slots[x.claimed..], Stored, Sending);
  }

  lemma FirstClaim(s: State, a: SendId) returns (s1: State)
    requires At(s, a, Claiming) && s.sends[a].claimed < |s.sends[a].slots|
    requires var x := s.sends[a]; Distinct(x.slots[x.claimed..]) && AllIn(s.slots, x.slots[x.claimed..], Stored)
    ensures var x := s.sends[a];
            && s1 == Next(s, OfSend(a, ClaimNext))
            && s1 == s.(sends := s.sends[a := x.(claimed := x.claimed + 1)], slots := s.slots[x.slots[x.claimed] := Sending])
            && Distinct(x.slots[x.claimed + 1..]) && AllIn(s1.slots, x.slots[x.claimed + 1..], Stored)
  {
    var x := s.sends[a];
    s1 := s.(sends := s.sends[a := x.(claimed := x.claimed + 1)], slots := s.slots[x.slots[x.claimed] := Sending]);
    assert x.slots[x.claimed..][0] == x.slots[x.claimed] && x.slots[x.claimed..][1..] == x.slots[x.claimed + 1..];
    OneClaim(s, a);
    RestIn(s.slots, x.slots[x.claimed..], Stored, Sending);
  }

  /** Claiming slot after slot takes them all, if all of them are stored. */
  lemma {:induction false} ClaimsTakeAll(s: State, a: SendId)
    requires At(s, a, Claiming) && s.sends[a].claimed <= |s.sends[a].slots|
    requires var x := s.sends[a]; Distinct(x.slots[x.claimed..]) && AllIn(s.slots, x.slots[x.claimed..], Stored)
    ensures TookAll(s, Run(s, Again(a, ClaimNext, |s.sends[a].slots| - s.sends[a].claimed)), a)
    decreases |s.sends[a].slots| - s.sends[a].claimed
  {
    var n := |s.sends[a].slots| - s.sends[a].claimed;
    if n == 0 {
      NoneToTake(s, a);
    } else {
      var s1 := FirstClaim(s, a);
      ClaimsTakeAll(s1, a);
      RunAgain(s, a, ClaimNext, n);
      OneMoreTaken(s, s1, Run(s1, Again(a, ClaimNext, n - 1)), a);
    }
  }

  lemma OneSettlement(s: State, a: SendId)
    requires At(s, a, Settling) && s.sends[a].settled < s.sends[a].claimed <= |s.sends[a].slots|
    requires var x := s.sends[a]; x.slots[x.settled] in s.slots && s.slots[x.slots[x.settled]] == Sending
    ensures var x := s.sends[a];
            Next(s, OfSend(a, SettleNext)) ==
              s.(sends := s.sends[a := x.(settled := x.settled + 1)], slots := s.slots[x.slots[x.settled] := SettledState(x.outcome)])
  {
  }

  lemma LastSettlement(s: State, a: SendId)
    requires At(s, a, Settling) && s.sends[a].settled == s.sends[a].claimed
    ensures Next(s, OfSend(a, SettleNext)) == s.(sends := s.sends[a := s.sends[a].(phase := Closed)])
  {
  }

  /** Every slot not settled yet is settled by the outcome, the send is over, and nothing else has changed. */
  predicate SettledAll(s: State, s': State, a: SendId)
    requires a in s.sends && s.sends[a].settled <= |s.sends[a].slots|
  {
    var x := s.sends[a];
    && OnlyThis(s, s', a) && s'.sends[a] == x.(settled := |x.slots|, phase := Closed)
    && Moved(s.slots, s'.slots, x.slots[x.settled..], SettledState(x.outcome))
  }

  lemma OneMoreSettled(s: State, s1: State, s': State, a: SendId)
    requires a in s.sends && s.sends[a].settled < |s.sends[a].slots|
    requires var x := s.sends[a]; Distinct(x.slots[x.settled..]) && AllIn(s.slots, x.slots[x.settled..], Sending)
    requires var x := s.sends[a];
             s1 == s.(sends := s.sends[a := x.(settled := x.settled + 1)],
                      slots := s.slots[x.slots[x.settled] := SettledState(x.outcome)])
    requires SettledAll(s1, s', a)
    ensures SettledAll(s, s', a)
  {
    var x := s.sends[a];
    assert x.slots[x.settled..][0] == x.slots[x.settled] && x.slots[x.settled..][1..] == x.slots[x.settled + 1..];
    MovedOn(s.slots, s'.slots, x.slots[x.settled..], Sending, SettledState(x.outcome));
  }

  /** Settling slot after slot settles them all as reported, and closes the send. */
  lemma {:induction false} SettlementsReachAll(s: State, a: SendId)
    requires At(s, a, Settling) && s.sends[a].settled <= s.sends[a].claimed == |s.sends[a].slots|
    requires var x := s.sends[a]; Distinct(x.slots[x.settled..]) && AllIn(s.slots, x.slots[x.settled..], Sending)
    ensures SettledAll(s, Run(s, Again(a, SettleNext, |s.sends[a].slots| - s.sends[a].settled + 1)), a)
    decreases |s.sends[a].slots| - s.sends[a].settled
  {
    var x := s.sends[a];
    var n := |x.slots| - x.settled;
    var s1 := Next(s, OfSend(a, SettleNext));
    RunAgain(s, a, SettleNext, n + 1);
    if n == 0 {
      LastSettlement(s, a);
    } else {
      assert x.slots[x.settled..][0] == x.slots[x.settled] && x.slots[x.settled..][1..] == x.slots[x.settled + 1..];
      OneSettlement(s, a);
      RestIn(s.slots, x.slots[x.settled..], Sending, SettledState(x.outcome));
      SettlementsReachAll(s1, a);
      OneMoreSettled(s, s1, Run(s1, Again(a, SettleNext, n)), a);
    }
  }

  /** A request nothing stands against: its key is fresh, its account is there, its slots are stored. */
  ghost predicate Fresh(s: State, owner: Owner, account: AccountId, key: Key, slots: seq<SlotId>) {
    && account in s.accounts && (forall d :: d in s.deletions ==> s.deletions[d].account != account)
    && (owner, key) !in s.audits
    && (forall b :: b in s.sends && s.sends[b].phase == Inserted ==> (s.sends[b].owner, s.sends[b].key) != (owner, key))
    && Distinct(slots) && AllIn(s.slots, slots, Stored)
  }

  /** The request, its look-up and its claims. */
  function Opening(a: SendId, owner: Owner, account: AccountId, key: Key, hash: nat, slots: seq<SlotId>): seq<Step> {
    [OfSend(a, Begin(owner, account, key, hash, slots)), OfSend(a, LookUp)] + Again(a, ClaimNext, |slots|)
  }

  lemma LookedUp(s: State, a: SendId, owner: Owner, account: AccountId, key: Key, hash: nat, slots: seq<SlotId>)
    requires a !in s.sends && Fresh(s, owner, account, key, slots)
    ensures Run(s, [OfSend(a, Begin(owner, account, key, hash, slots)), OfSend(a, LookUp)]) ==
              s.(sends := s.sends[a := Send(owner, account, key, hash, slots, Claiming, 0, 0, Failed, s.now)])
  {
    var begin, lookUp := OfSend(a, Begin(owner, account, key, hash, slots)), OfSend(a, LookUp);
    RunAppend(s, [begin], [lookUp]);
    assert [begin] + [lookUp] == [begin, lookUp];
    RunOne(s, begin);
    RunOne(Next(s, begin), lookUp);
  }

  lemma Opened(s: State, a: SendId, owner: Owner, account: AccountId, key: Key, hash: nat, slots: seq<SlotId>)
    requires a !in s.sends && Fresh(s, owner, account, key, slots)
    ensures var s' := Run(s, Opening(a, owner, account, key, hash, slots));
            && OnlyThis(s, s', a)
            && s'.sends[a] == Send(owner, account, key, hash, slots, Claiming, |slots|, 0, Failed, s.now)
            && Moved(s.slots, s'.slots, slots, Sending)
  {
    var first := [OfSend(a, Begin(owner, account, key, hash, slots)), OfSend(a, LookUp)];
    RunAppend(s, first, Again(a, ClaimNext, |slots|));
    LookedUp(s, a, owner, account, key, hash, slots);
    assert slots[0..] == slots;
    ClaimsTakeAll(Run(s, first), a);
  }

  /** Its audit, its call and the transport's report. */
  function Calls(a: SendId, r: Report, now: Time): seq<Step> {
    [OfSend(a, Insert(now)), OfSend(a, Record), OfSend(a, Transport), OfSend(a, SendStep.Reported(r, true))]
  }

  function Closing(a: SendId, r: Report, now: Time, n: nat): seq<Step> {
    Calls(a, r, now) + Again(a, SettleNext, n + 1)
  }

  function Final(r: Report): SlotState {
    if r.success then Consumed
    else if r.delivery.Some? && r.delivery.value != "failed" then SendUnknown
    else Stored
  }

  function AuditStatus(r: Report): string {
    if r.success then "sent" else if r.delivery.Some? then r.delivery.value else "failed"
  }

  lemma RunFour(s: State, a: Step, b: Step, c: Step, d: Step)
    ensures Run(s, [a, b, c, d]) == Next(Next(Next(Next(s, a), b), c), d)
  {
    assert [a, b, c, d] == [a, b] + [c, d] && [a, b] == [a] + [b] && [c, d] == [c] + [d];
    RunAppend(s, [a, b], [c, d]);
    RunAppend(s, [a], [b]);
    RunAppend(Next(Next(s, a), b), [c], [d]);
    RunOne(s, a);
    RunOne(Next(s, a), b);
    RunOne(Next(Next(s, a), b), c);
    RunOne(Next(Next(Next(s, a), b), c), d);
  }

  lemma CalledNext(s: State, a: SendId)
    requires At(s, a, Claiming) && s.sends[a].claimed == |s.sends[a].slots|
    requires var x := s.sends[a];
             && x.account in s.accounts && !HeldForDeletion(s, x.account)
             && (x.owner, x.key) !in s.audits && !KeyReserved(s, x.owner, x.key)
    ensures var x := s.sends[a];
            Next(Next(Next(s, OfSend(a, Insert(s.now))), OfSend(a, Record)), OfSend(a, Transport)) ==
              s.(sends := s.sends[a := x.(phase := Calling, outcome := Unknown, began := s.now)],
                 audits := s.audits[(x.owner, x.key) := Audit(Some(x.account), x.hash, "pending", s.now, a)],
                 calls := s.calls + [Call(x.owner, x.key, a)])
  {
  }

  lemma ReportedNext(s: State, a: SendId, r: Report)
    requires At(s, a, Calling) && (s.sends[a].owner, s.sends[a].key) in s.audits
    ensures var x := s.sends[a];
            var audit := s.audits[(x.owner, x.key)];
            Next(s, OfSend(a, SendStep.Reported(r, true))) ==
              s.(sends := s.sends[a := x.(phase := Settling, outcome := DeliveryOutcome(r))],
                 audits := s.audits[(x.owner, x.key) := audit.(status := AuditStatus(r))])
  {
  }

  /** Another send that has yet to insert stands in nobody's way. */
  lemma StillFresh(s: State, s': State, a: SendId, owner: Owner, account: AccountId, key: Key)
    requires a !in s.sends && OnlyThis(s, s', a) && !Inserting(s'.sends[a])
    requires account in s.accounts && !HeldForDeletion(s, account) && (owner, key) !in s.audits && !KeyReserved(s, owner, key)
    ensures account in s'.accounts && !HeldForDeletion(s', account) && (owner, key) !in s'.audits && !KeyReserved(s', owner, key)
  {
  }

  /** One call has been made and answered; the send waits to settle all of its slots. */
  predicate ReportedOn(s: State, s': State, a: SendId, r: Report)
    requires a in s.sends
  {
    var x := s.sends[a];
    s' == s.(sends := s.sends[a := x.(phase := Settling, outcome := DeliveryOutcome(r), began := s.now)],
             audits := s.audits[(x.owner, x.key) := Audit(Some(x.account), x.hash, AuditStatus(r), s.now, a)],
             calls := s.calls + [Call(x.owner, x.key, a)])
  }

  /** The state in which the call has been made. */
  predicate CalledOn(s: State, s1: State, a: SendId)
    requires a in s.sends
  {
    var x := s.sends[a];
    s1 == s.(sends := s.sends[a := x.(phase := Calling, outcome := Unknown, began := s.now)],
             audits := s.audits[(x.owner, x.key) := Audit(Some(x.account), x.hash, "pending", s.now, a)],
             calls := s.calls + [Call(x.owner, x.key, a)])
  }

  lemma CalledNow(s: State, a: SendId) returns (s1: State)
    requires At(s, a, Claiming) && s.sends[a].claimed == |s.sends[a].slots|
    requires var x := s.sends[a];
             && x.account in s.accounts && !HeldForDeletion(s, x.account)
             && (x.owner, x.key) !in s.audits && !KeyReserved(s, x.owner, x.key)
    ensures s1 == Next(Next(Next(s, OfSend(a, Insert(s.now))), OfSend(a, Record)), OfSend(a, Transport))
    ensures CalledOn(s, s1, a) && At(s1, a, Calling) && (s1.sends[a].owner, s1.sends[a].key) in s1.audits
  {
    s1 := Next(Next(Next(s, OfSend(a, Insert(s.now))), OfSend(a, Record)), OfSend(a, Transport));
    CalledNext(s, a);
  }

  lemma ReportedOnCalled(s: State, s1: State, s': State, a: SendId, r: Report)
    requires a in s.sends && CalledOn(s, s1, a)
    requires var x, audit := s1.sends[a], s1.audits[(s1.sends[a].owner, s1.sends[a].key)];
             s' == s1.(sends := s1.sends[a := x.(phase := Settling, outcome := DeliveryOutcome(r))],
                       audits := s1.audits[(x.owner, x.key) := audit.(status := AuditStatus(r))])
    ensures ReportedOn(s, s', a, r)
  {
  }

  lemma CalledAndReported(s: State, a: SendId, r: Report)
    requires At(s, a, Claiming) && s.sends[a].claimed == |s.sends[a].slots|
    requires var x := s.sends[a];
             && x.account in s.accounts && !HeldForDeletion(s, x.account)
             && (x.owner, x.key) !in s.audits && !KeyReserved(s, x.owner, x.key)
    ensures ReportedOn(s, Run(s, Calls(a, r, s.now)), a, r)
  {
    RunFour(s, OfSend(a, Insert(s.now)), OfSend(a, Record), OfSend(a, Transport), OfSend(a, SendStep.Reported(r, true)));
    var s1 := CalledNow(s, a);
    ReportedNext(s1, a, r);
    ReportedOnCalled(s, s1, Next(s1, OfSend(a, SendStep.Reported(r, true))), a, r);
  }

  lemma MovedTwice(before: map<SlotId, SlotState>, middle: map<SlotId, SlotState>, after: map<SlotId, SlotState>,
                   ids: seq<SlotId>, first: SlotState, second: SlotState)
    requires Moved(before, middle, ids, first) && Moved(middle, after, ids, second)
    ensures Moved(before, after, ids, second)
  {
  }

  lemma MovedAll(before: map<SlotId, SlotState>, after: map<SlotId, SlotState>, ids: seq<SlotId>, from: SlotState, to: SlotState)
    requires AllIn(before, ids, from) && Moved(before, after, ids, to)
    ensures AllIn(after, ids, to)
  {
  }

  /** Called, reported and settled, with every slot as the report says. */
  predicate Through(s: State, s': State, a: SendId, r: Report)
    requires a in s.sends
  {
    var x := s.sends[a];
    && s' == s.(sends := s.sends[a := x.(phase := Closed, settled := |x.slots|, outcome := DeliveryOutcome(r), began := s.now)],
                audits := s.audits[(x.owner, x.key) := Audit(Some(x.account), x.hash, AuditStatus(r), s.now, a)],
                calls := s.calls + [Call(x.owner, x.key, a)],
                slots := s'.slots)
    && Moved(s.slots, s'.slots, x.slots, Final(r))
  }

  lemma ClosesAsReported(s: State, a: SendId, r: Report)
    requires At(s, a, Claiming) && s.sends[a].claimed == |s.sends[a].slots| && s.sends[a].settled == 0
    requires var x := s.sends[a];
             && x.account in s.accounts && !HeldForDeletion(s, x.account)
             && (x.owner, x.key) !in s.audits && !KeyReserved(s, x.owner, x.key)
             && Distinct(x.slots) && AllIn(s.slots, x.slots, Sending)
    ensures Through(s, Run(s, Closing(a, r, s.now, |s.sends[a].slots|)), a, r)
  {
    var s1 := Run(s, Calls(a, r, s.now));
    CalledAndReported(s, a, r);
    RunAppend(s, Calls(a, r, s.now), Again(a, SettleNext, |s.sends[a].slots| + 1));
    assert s.sends[a].slots[0..] == s.sends[a].slots;
    SettlementsReachAll(s1, a);
  }

  /**
   A request nothing stands against is sent: one call, its audit with the reported status, and every slot
   consumed, back or unknown as reported; everything else is as it was.
   */
  lemma AFreshSendIsSent(s: State, a: SendId, owner: Owner, account: AccountId, key: Key, hash: nat, slots: seq<SlotId>, r: Report)
    requires a !in s.sends && Fresh(s, owner, account, key, slots)
    ensures var s' := Run(s, Opening(a, owner, account, key, hash, slots) + Closing(a, r, s.now, |slots|));
            && s' == s.(sends := s'.sends, slots := s'.slots,
                        audits := s.audits[(owner, key) := Audit(Some(account), hash, AuditStatus(r), s.now, a)],
                        calls := s.calls + [Call(owner, key, a)])
            && s'.sends.Keys == s.sends.Keys + {a} && s'.sends[a].phase == Closed
            && (forall b :: b in s.sends ==> s'.sends[b] == s.sends[b])
            && Moved(s.slots, s'.slots, slots, Final(r))
  {
    var s1 := Run(s, Opening(a, owner, account, key, hash, slots));
    RunAppend(s, Opening(a, owner, account, key, hash, slots), Closing(a, r, s.now, |slots|));
    Opened(s, a, owner, account, key, hash, slots);
    StillFresh(s, s1, a, owner, account, key);
    MovedAll(s.slots, s1.slots, slots, Stored, Sending);
    ClosesAsReported(s1, a, r);
    MovedTwice(s.slots, s1.slots, Run(s1, Closing(a, r, s.now, |slots|)).slots, slots, Sending, Final(r));
  }

  /** The audits without one account. */
  function Detached(audits: Audits, account: AccountId): Audits {
    map k | k in audits :: if audits[k].account == Some(account) then audits[k].(account := None) else audits[k]
  }

  /** No other deletion holds the account, no audit of it is being written, and none is pending and young. */
  ghost predicate Unused(s: State, account: AccountId) {
    && (forall d :: d in s.deletions ==> s.deletions[d].account != account)
    && (forall a :: a in s.sends && s.sends[a].phase == Inserted ==> s.sends[a].account != account)
    && (forall k :: k in s.audits && s.audits[k].account == Some(account) && s.audits[k].status == "pending" ==>
          s.audits[k].created < s.now - IN_FLIGHT_SEND_WINDOW)
  }

  lemma UnusedIsUnhindered(s: State, account: AccountId)
    ensures var free := !HeldForDeletion(s, account) && !HeldByInsert(s, account);
            Unused(s, account) <==> free && !AnyInFlight(s.audits, account, s.now - IN_FLIGHT_SEND_WINDOW)
  {
  }

  lemma CheckedThenDeleted(s: State, d: nat, account: AccountId)
    requires d !in s.deletions
    ensures var s1 := s.(deletions := s.deletions[d := Locked(account)]);
            var s' := Next(Next(s1, OfDeletion(d, CheckAccount)), OfDeletion(d, DeleteAccount));
            if AnyInFlight(s.audits, account, s.now - IN_FLIGHT_SEND_WINDOW) then s' == s
            else s' == s.(accounts := s.accounts - {account}, audits := Detached(s.audits, account))
  {
    assert s.deletions[d := Locked(account)] - {d} == s.deletions;
    assert s.deletions[d := Locked(account)][d := Checked(account, s.now)] - {d} == s.deletions;
  }

  /** Locked, checked and carried out, a deletion takes the account exactly if it is the owner's and unused. */
  lemma DeletedExactly(s: State, d: nat, owner: Owner, account: AccountId)
    requires d !in s.deletions
    ensures var s' := Run(s, [OfDeletion(d, LockAccount(owner, account)), OfDeletion(d, CheckAccount), OfDeletion(d, DeleteAccount)]);
            if account in s.accounts && s.accounts[account] == owner && Unused(s, account)
            then s' == s.(accounts := s.accounts - {account}, audits := Detached(s.audits, account))
            else s' == s
  {
    RunThree(s, OfDeletion(d, LockAccount(owner, account)), OfDeletion(d, CheckAccount), OfDeletion(d, DeleteAccount));
    UnusedIsUnhindered(s, account);
    if DeletionEnabled(s, d, LockAccount(owner, account)) {
      CheckedThenDeleted(s, d, account);
    }
  }

  /** A deletion given up leaves no trace. */
  lemma GivenUpIsNothing(s: State, d: nat, owner: Owner, account: AccountId, checked: bool)
    requires d !in s.deletions
    ensures var s1 := Next(s, OfDeletion(d, LockAccount(owner, account)));
            Next(if checked then Next(s1, OfDeletion(d, CheckAccount)) else s1, OfDeletion(d, GiveUp)) == s
  {
    assert s.deletions[d := Locked(account)] - {d} == s.deletions;
    assert s.deletions[d := Locked(account)][d := Checked(account, s.now)] - {d} == s.deletions;
  }

  // ---- what becomes of a slot -----------------------------------------------------------------

  predicate Names(s: State, slot: SlotId) {
    exists a :: a in s.sends && slot in s.sends[a].slots
  }

  /** Stored, then sending for a send that names it, then settled or lapsed; swept at any time, and then gone. */
  predicate GoesOn(s: State, s': State, slot: SlotId) {
    && (slot in s.swept && slot !in s.slots ==> slot in s'.swept && slot !in s'.slots)
    && (slot in s.slots ==>
          if slot !in s'.slots then slot in s'.swept
          else s'.slots[slot] == s.slots[slot]
               || (s.slots[slot] == Stored && s'.slots[slot] == Sending && Names(s, slot))
               || (s.slots[slot] == Sending && s'.slots[slot] in {Stored, Consumed, SendUnknown}))
  }

  lemma SendGoesOn(s: State, a: SendId, step: SendStep, slot: SlotId)
    requires SendEnabled(s, a, step)
    ensures GoesOn(s, SendNext(s, a, step), slot)
  {
    if step.ClaimNext? { assert s.sends[a].slots[s.sends[a].claimed] in s.sends[a].slots; }
  }

  lemma DeletionGoesOn(s: State, d: nat, step: DeletionStep)
    requires DeletionEnabled(s, d, step)
    ensures var s' := DeletionNext(s, d, step); s'.sends == s.sends && s'.slots == s.slots && s'.swept == s.swept
  {
  }

  lemma WorldGoesOn(s: State, step: WorldStep, slot: SlotId)
    ensures GoesOn(s, WorldNext(s, step), slot) && WorldNext(s, step).sends == s.sends
  {
  }

  /** An upload that completes can be spent, a claim that lapses is of unknown delivery, a slot swept is gone, and an account added is new. */
  lemma WorldMoves(s: State, slot: SlotId, owner: Owner)
    ensures slot !in s.slots && slot !in s.swept ==> WorldNext(s, Fill(slot)).slots == s.slots[slot := Stored]
    ensures slot in s.slots && s.slots[slot] == Sending ==> WorldNext(s, Lapse(slot)).slots == s.slots[slot := SendUnknown]
    ensures slot in s.slots ==> slot !in WorldNext(s, Sweep(slot)).slots
    ensures var s' := WorldNext(s, AddAccount(owner)); s'.accounts == s.accounts[s.nextAccount := owner] && s'.nextAccount > s.nextAccount
  {
  }

  lemma StepGoesOn(s: State, step: Step, slot: SlotId)
    ensures GoesOn(s, Next(s, step), slot)
  {
    match step {
      case OfSend(a, send) => if SendEnabled(s, a, send) { SendGoesOn(s, a, send, slot); }
      case OfDeletion(d, deletion) => if DeletionEnabled(s, d, deletion) { DeletionGoesOn(s, d, deletion); }
      case OfWorld(world) => WorldGoesOn(s, world, slot);
    }
  }

  /** A slot spent, for good or for unknown, stays so until it is swept, in every run. */
  lemma {:induction false} SpentForGood(s: State, steps: seq<Step>, slot: SlotId, state: SlotState)
    requires state in {Consumed, SendUnknown}
    requires if slot in s.slots then s.slots[slot] == state else slot in s.swept
    ensures var s' := Run(s, steps); if slot in s'.slots then s'.slots[slot] == state else slot in s'.swept
    decreases |steps|
  {
    if steps != [] {
      StepGoesOn(s, steps[0], slot);
      SpentForGood(Next(s, steps[0]), steps[1..], slot, state);
    }
  }

  lemma NamesStay(s: State, step: Step, slot: SlotId)
    requires Names(s, slot)
    ensures Names(Next(s, step), slot)
  {
    var a :| a in s.sends && slot in s.sends[a].slots;
    match step {
      case OfSend(b, send) => if SendEnabled(s, b, send) { SlotsStayNamed(s, b, send); assert slot in Next(s, step).sends[a].slots; }
      case OfDeletion(d, deletion) => if DeletionEnabled(s, d, deletion) { DeletionGoesOn(s, d, deletion); }
      case OfWorld(world) => WorldGoesOn(s, world, slot);
    }
  }

  lemma SlotsStayNamed(s: State, b: SendId, step: SendStep)
    requires SendEnabled(s, b, step)
    ensures var s' := SendNext(s, b, step); forall a :: a in s.sends ==> a in s'.sends && s'.sends[a].slots == s.sends[a].slots
  {
  }

  /** A stored slot that no request has named by the end of a run is still stored then, or swept. */
  lemma {:induction false} UnnamedStaysStored(s: State, steps: seq<Step>, slot: SlotId)
    requires if slot in s.slots then s.slots[slot] == Stored else slot in s.swept
    requires !Names(Run(s, steps), slot)
    ensures var s' := Run(s, steps); !Names(s, slot) && if slot in s'.slots then s'.slots[slot] == Stored else slot in s'.swept
    decreases |steps|
  {
    if steps != [] {
      StepGoesOn(s, steps[0], slot);
      if Names(s, slot) { NamesStay(s, steps[0], slot); NamesForGood(Next(s, steps[0]), steps[1..], slot); }
      UnnamedStaysStored(Next(s, steps[0]), steps[1..], slot);
    }
  }

  lemma {:induction false} NamesForGood(s: State, steps: seq<Step>, slot: SlotId)
    requires Names(s, slot)
    ensures Names(Run(s, steps), slot)
    decreases |steps|
  {
    if steps != [] {
      NamesStay(s, steps[0], slot);
      NamesForGood(Next(s, steps[0]), steps[1..], slot);
    }
  }
}
