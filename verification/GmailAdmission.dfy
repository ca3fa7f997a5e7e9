/**
 When a call of GmailThrottle goes out: left alone, at the first moment the gate, the pacing and the deadline
 allow, and not at all if that is past the deadline.
 */
module GmailAdmission {
  import opened Common
  import opened GmailThrottle

  // ---- a task by itself -----------------------------------------------------------------------

  /** How long a task sleeps. */
  function Sleep(c: Client, p: Phase): real {
    match p
    case Gated(until) => MaxR(until - c.now, 0.0)
    case Slotted(until) => MaxR(until - c.now, 0.0)
    case Backing(until) => MaxR(until - c.now, 0.0)
    case _ => 0.0
  }

  /** The task sleeps as long as it has to and then runs to its next await; nobody else runs. */
  function Advance(s: State, t: TaskId): State
    requires t in s.tasks
  {
    Next(Next(s, Pass(Sleep(s.client, s.tasks[t].phase))), Turn(t))
  }

  ghost predicate Reaches(s: State, t: TaskId, s': State, rounds: nat)
    decreases rounds
  {
    s == s' || (rounds > 0 && t in s.tasks && Reaches(Advance(s, t), t, s', rounds - 1))
  }

  /** Still in a throttled period at this time. */
  predicate StillPaced(c: Client, at: real) { c.paced && at < c.gate + PACE_HOLD }

  /** When the gate is open. */
  function Opening(c: Client): real { if c.gate > c.now then c.gate else c.now }

  /** The first moment at which a request may start. */
  function Moment(c: Client): real {
    if StillPaced(c, Opening(c)) && c.nextSlot > Opening(c) then c.nextSlot else Opening(c)
  }

  /** A request that would have to wait, for the gate or in the queue of slots, past the deadline is not made. */
  predicate TooLate(c: Client) { (c.gate > c.now || StillPaced(c, Opening(c))) && Moment(c) > c.deadline }

  /** The request is out, started at this time. */
  predicate SentAt(s: State, s': State, t: TaskId, at: real, paced: bool) {
    && s'.client.now == at && s'.lock == s.lock && t in s.tasks && t in s'.tasks
    && s'.tasks[t].phase == InFlight(at) && s'.tasks[t].attempts == s.tasks[t].attempts + 1
    && s'.events == s.events + [Sent(t, at, paced, paced)]
    && s'.client.paced == paced && (paced ==> s'.client.nextSlot == at + PACED_INTERVAL)
    && s'.client.streak == (if s.client.paced && !paced then 0 else s.client.streak)
  }

  predicate RefusedIn(s: State, s': State, t: TaskId) {
    s'.lock == s.lock && t in s'.tasks && s'.tasks[t].phase == RateLimited && s'.events == s.events
  }

  lemma OneMoreRound(s: State, t: TaskId, s': State, rounds: nat)
    requires t in s.tasks && Reaches(Advance(s, t), t, s', rounds)
    ensures Reaches(s, t, s', rounds + 1)
  {
  }

  /** A task holding the pace lock with the gate open sends at its slot. */
  lemma PacingSends(s: State, t: TaskId) returns (s': State)
    requires t in s.tasks && s.tasks[t].phase == Pacing && s.lock == Some(t) && s.client.gate <= s.client.now && s.client.paced
    ensures Reaches(s, t, s', 2)
    ensures var slot := MaxR(s.client.nextSlot, s.client.now);
            if slot > s.client.deadline then RefusedIn(s.(lock := None), s', t) else SentAt(s.(lock := None), s', t, slot, true)
  {
    var slot := MaxR(s.client.nextSlot, s.client.now);
    s' := Advance(s, t);
    if s.client.now < slot <= s.client.deadline {
      var s1 := s';
      s' := SlottedSends(s1, t);
    }
  }

  lemma SlottedSends(s: State, t: TaskId) returns (s': State)
    requires t in s.tasks && s.tasks[t].phase.Slotted? && s.lock == Some(t) && s.client.paced
    requires var slot := s.tasks[t].phase.until; s.client.gate <= s.client.now < slot == s.client.nextSlot <= s.client.deadline
    ensures s' == Advance(s, t) && SentAt(s.(lock := None), s', t, s.client.nextSlot, true)
  {
    s' := Advance(s, t);
  }

  /** A ready task with the gate open sends at once, or on the next slot if the client is still paced. */
  lemma OpenGateSends(s: State, t: TaskId) returns (s': State)
    requires t in s.tasks && s.tasks[t].phase == Ready && s.lock == None && s.client.gate <= s.client.now
    ensures Reaches(s, t, s', 4)
    ensures if TooLate(s.client) then RefusedIn(s, s', t)
            else SentAt(s, s', t, Moment(s.client), StillPaced(s.client, Opening(s.client)))
  {
    var c := s.client;
    s' := Advance(s, t);
    if StillPaced(c, c.now) {
      var queued := s';
      var holding := Advance(queued, t);
      QueuedTakesLock(s, queued, holding, t);
      s' := PacingSends(holding, t);
      OneMoreRound(queued, t, s', 2);
      OneMoreRound(s, t, s', 3);
    }
  }

  lemma QueuedTakesLock(s: State, queued: State, holding: State, t: TaskId)
    requires t in s.tasks && s.tasks[t].phase == Ready && s.lock == None && s.client.gate <= s.client.now && StillPaced(s.client, s.client.now)
    requires queued == Advance(s, t) && t in queued.tasks && holding == Advance(queued, t)
    ensures holding == s.(lock := Some(t), tasks := s.tasks[t := s.tasks[t].(phase := Pacing)])
  {
    assert queued == s.(tasks := s.tasks[t := s.tasks[t].(phase := Queued)]);
  }

  /** A task waiting for the gate. */
  lemma ClosedGateWaits(s: State, t: TaskId)
    requires t in s.tasks && s.tasks[t].phase == Ready && s.lock == None && s.client.gate > s.client.now
    ensures Advance(s, t) == s.(tasks := s.tasks[t := s.tasks[t].(phase := if s.client.gate > s.client.deadline then RateLimited else Gated(s.client.gate))])
  {
  }

  /** Waking up at the gate is coming to an open gate then. */
  lemma WakesReady(s: State, t: TaskId)
    requires t in s.tasks && s.tasks[t].phase == Gated(s.client.gate) && s.client.gate > s.client.now
    ensures var awake := s.(client := s.client.(now := s.client.gate), tasks := s.tasks[t := s.tasks[t].(phase := Ready)]);
            Advance(s, t) == Advance(awake, t)
  {
  }

  /**
   A new call, while nobody holds the pace lock and nobody else runs, goes out exactly at the first moment
   allowed, paced just if the throttled period lasts until then, or is refused just if that is too late.
   */
  lemma ALoneCallIsAdmitted(s: State, t: TaskId) returns (s': State)
    requires t !in s.tasks && s.lock == None
    ensures Reaches(Next(s, Call(t)), t, s', 5)
    ensures if TooLate(s.client) then RefusedIn(s, s', t)
            else SentAt(Next(s, Call(t)), s', t, Moment(s.client), StillPaced(s.client, Opening(s.client)))
  {
    var called := Next(s, Call(t));
    if s.client.gate <= s.client.now {
      s' := OpenGateSends(called, t);
    } else {
      ClosedGateWaits(called, t);
      s' := Advance(called, t);
      if s.client.gate <= s.client.deadline {
        var gated := s';
        var awake := gated.(client := gated.client.(now := gated.client.gate), tasks := gated.tasks[t := gated.tasks[t].(phase := Ready)]);
        WakesReady(gated, t);
        s' := OpenGateSends(awake, t);
      }
    }
  }

  /** The first call of a client goes out at once, with all its retries left; its first throttle pauses for five seconds. */
  lemma AFreshClientSendsAtOnce(now: real, deadline: real, t: TaskId)
    requires now >= 0.0
    ensures var s := Run(Start(now, deadline), [Call(t), Turn(t)]);
            && s.events == [Sent(t, now, false, false)] && s.client == Start(now, deadline).client
            && t in s.tasks && s.tasks[t].phase == InFlight(now) && !s.tasks[t].refreshed && s.tasks[t].transients == 0
            && Next(s, Respond(t, Throttled(None))).client.gate == now + 5.0
            && Next(s, Respond(t, Throttled(None))).client.streak == 1
  {
    var s0, s1 := Start(now, deadline), Next(Start(now, deadline), Call(t));
    assert [Call(t), Turn(t)][1..] == [Turn(t)] && [Turn(t)][1..] == [];
    assert Run(s0, [Call(t), Turn(t)]) == Run(s1, [Turn(t)]) == Run(Next(s1, Turn(t)), []);
  }
}
