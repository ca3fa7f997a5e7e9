/** What the throttle gate and the pacer of GmailThrottle keep, across all tasks of one client. */
module GmailPacing {
  import opened Common
  import opened GmailThrottle

  // ---- the invariant ------------------------------------------------------------------------

  predicate ClientOk(c: Client) {
    c.last.Some? ==> c.last.value <= c.now && c.last.value + MIN_THROTTLE_PAUSE <= c.gate
  }

  predicate Over(p: Phase) { p.Returned? || p.RateLimited? || p.Cancelled? }

  function Pending(p: Phase): nat { if p.InFlight? then 1 else 0 }

  function Refreshes(x: Task): nat { if x.refreshed then 1 else 0 }

  /** The waits end by the deadline, and every attempt is accounted for. */
  predicate TaskOk(c: Client, x: Task) {
    && (x.phase.Gated? ==> x.phase.until <= c.deadline)
    && (x.phase.Slotted? ==> x.phase.until <= c.deadline)
    && x.transients <= 2 && (x.attempts > 0 ==> x.first <= c.now)
    && (if Over(x.phase) then x.attempts <= x.throttles + Refreshes(x) + x.transients + 1
        else x.attempts == x.throttles + Refreshes(x) + x.transients + Pending(x.phase))
    && (x.throttles > 0 ==>
          && x.first + (x.throttles - 1) as real <= x.throttled   // a pause is at least 1 s
          && x.throttled + MIN_THROTTLE_PAUSE <= c.gate
          && x.throttled + MIN_THROTTLE_PAUSE <= c.deadline)
    && (x.phase.InFlight? ==>
          && x.first <= x.phase.sent <= c.now
          && (x.throttles > 0 ==> x.throttled + MIN_THROTTLE_PAUSE <= x.phase.sent))
  }

  predicate Holding(p: Phase) { p.Pacing? || p.Slotted? }

  ghost predicate LockOk(s: State) {
    && (s.lock.Some? ==> s.lock.value in s.tasks && Holding(s.tasks[s.lock.value].phase))
    && (forall t :: t in s.tasks && Holding(s.tasks[t].phase) ==> s.lock == Some(t))
  }

  predicate EventOk(c: Client, e: Event) {
    match e
    case Sent(_, at, paced, throttled) => at <= c.now && (paced ==> at + PACED_INTERVAL <= c.nextSlot) && (throttled ==> paced)
    case Noted(_, sent, at, until) => c.last.Some? && at <= c.last.value && until <= c.gate
  }

  /** Nothing is sent before a gate closed earlier has opened. */
  ghost predicate GateHeld(events: seq<Event>) {
    forall i, j :: 0 <= i < j < |events| && events[i].Noted? && events[j].Sent? ==> events[i].until <= events[j].at
  }

  /** Two requests on paced slots start at least the interval apart. */
  ghost predicate Spaced(events: seq<Event>) {
    forall i, j :: (0 <= i < j < |events| && events[i].Sent? && events[i].paced && events[j].Sent? && events[j].paced)
      ==> events[i].at + PACED_INTERVAL <= events[j].at
  }

  /** Only a request sent no earlier than the last noted throttle can be noted in turn. */
  ghost predicate NoLateEscalation(events: seq<Event>) {
    forall i, j :: 0 <= i < j < |events| && events[i].Noted? && events[j].Noted? ==> events[i].at <= events[j].sent
  }

  ghost predicate Inv(s: State) {
    && ClientOk(s.client) && LockOk(s)
    && (forall t :: t in s.tasks ==> TaskOk(s.client, s.tasks[t]))
    && (forall i :: 0 <= i < |s.events| ==> EventOk(s.client, s.events[i]))
    && GateHeld(s.events) && Spaced(s.events) && NoLateEscalation(s.events)
  }

  // ---- one stretch --------------------------------------------------------------------------

  /** The shared fields only move forward. */
  predicate Forward(c: Client, c': Client) {
    && c'.now == c.now && c'.deadline == c.deadline && c.gate <= c'.gate && c.nextSlot <= c'.nextSlot
    && (c.last.Some? ==> c'.last.Some? && c.last.value <= c'.last.value)
  }

  /** What a stretch reports fits the fields it found and the fields it leaves. */
  predicate Reports(c: Client, c': Client, event: Option<Event>) {
    event.Some? ==>
      match event.value
      case Sent(_, at, paced, throttled) =>
        at == c.now && c.gate <= at && (paced ==> c.nextSlot <= at && at + PACED_INTERVAL <= c'.nextSlot) && (throttled ==> paced)
      case Noted(_, sent, at, until) => at == c.now && FreshThrottle(c, sent) && c'.last == Some(at) && until <= c'.gate
  }

  predicate TurnOk(c: Client, r: Turned) {
    Forward(c, r.client) && ClientOk(r.client) && Reports(c, r.client, r.event) && TaskOk(r.client, r.task)
    && (r.holds <==> Holding(r.task.phase))
  }

  lemma StillOk(c: Client, c': Client, x: Task)
    requires TaskOk(c, x) && Forward(c, c')
    ensures TaskOk(c', x)
  {
  }

  /** A request that starts with the gate open leaves a second between throttled attempts. */
  lemma SendingOk(c: Client, x: Task)
    requires TaskOk(c, x) && !x.phase.InFlight? && !Over(x.phase) && c.gate <= c.now
    ensures TaskOk(c, Sending(c, x))
  {
  }

  lemma AdmitOk(c: Client, x: Task, t: TaskId)
    requires ClientOk(c) && TaskOk(c, x) && x.phase.Ready?
    ensures TurnOk(c, Admit(c, x, t))
  {
    if c.gate <= c.now {
      var c' := Settled(c);
      StillOk(c, c', x);
      SendingOk(c', x);
    }
  }

  lemma ClaimOk(c: Client, x: Task, t: TaskId)
    requires ClientOk(c) && TaskOk(c, x) && (x.phase.Pacing? || x.phase.Slotted?)
    ensures TurnOk(c, Claim(c, x, t))
  {
    if c.gate <= c.now && MaxR(c.nextSlot, c.now) <= c.now {
      SendingOk(c, x);
      StillOk(c, c.(nextSlot := c.now + PACED_INTERVAL), Sending(c, x));
    } else {
      WaitingOk(c, x, t);
    }
  }

  lemma WaitingOk(c: Client, x: Task, t: TaskId)
    requires ClientOk(c) && TaskOk(c, x) && (x.phase.Pacing? || x.phase.Slotted?)
    requires c.gate > c.now || MaxR(c.nextSlot, c.now) > c.now
    ensures TurnOk(c, Claim(c, x, t))
  {
  }

  lemma TurnIsOk(c: Client, x: Task, t: TaskId)
    requires ClientOk(c) && TaskOk(c, x) && !x.phase.InFlight? && !Over(x.phase)
    ensures TurnOk(c, TurnOf(c, x, t))
  {
    match x.phase {
      case Gated(_) => AdmitOk(c, x.(phase := Ready), t);
      case Backing(_) =>
      case Queued =>
      case Pacing => ClaimOk(c, x, t);
      case Slotted(_) => ClaimOk(c, x, t);
      case Ready => AdmitOk(c, x, t);
    }
  }

  /** A throttle, fresh or late, leaves the gate closed for a second after the request it answers. */
  lemma NotingOk(c: Client, sent: real, retryAfter: Option<real>)
    requires ClientOk(c) && sent <= c.now
    ensures var c' := Noting(c, sent, retryAfter);
            Forward(c, c') && ClientOk(c') && sent + MIN_THROTTLE_PAUSE <= c'.gate
  {
  }

  lemma AnsweredOk(c: Client, x: Task, t: TaskId, answer: Answer)
    requires ClientOk(c) && TaskOk(c, x) && x.phase.InFlight?
    ensures TurnOk(c, Answered(c, x, t, x.phase.sent, answer))
  {
    if answer.Throttled? {
      NotingOk(c, x.phase.sent, answer.retryAfter);
    }
  }

  // ---- every step ---------------------------------------------------------------------------

  lemma EventsStillOk(c: Client, c': Client, events: seq<Event>)
    requires Forward(c, c') && forall i :: 0 <= i < |events| ==> EventOk(c, events[i])
    ensures forall i :: 0 <= i < |events| ==> EventOk(c', events[i])
  {
    forall i | 0 <= i < |events| ensures EventOk(c', events[i]) {
      assert EventOk(c, events[i]);
    }
  }

  lemma OneMoreEvent(c: Client, c': Client, events: seq<Event>, e: Event)
    requires Forward(c, c') && Reports(c, c', Some(e))
    requires forall i :: 0 <= i < |events| ==> EventOk(c, events[i])
    requires GateHeld(events) && Spaced(events) && NoLateEscalation(events)
    ensures var more := events + [e];
            && (forall i :: 0 <= i < |more| ==> EventOk(c', more[i]))
            && GateHeld(more) && Spaced(more) && NoLateEscalation(more)
  {
    EventsStillOk(c, c', events);
    forall i | 0 <= i < |events| ensures EventOk(c, events[i]) {}
  }

  lemma AfterKeepsTasks(s: State, t: TaskId, r: Turned)
    requires Inv(s) && t in s.tasks && TurnOk(s.client, r) && (r.holds ==> s.lock.None? || s.lock == Some(t))
    ensures LockOk(After(s, t, r))
    ensures forall k :: k in After(s, t, r).tasks ==> TaskOk(r.client, After(s, t, r).tasks[k])
  {
    var s' := After(s, t, r);
    forall k | k in s'.tasks ensures TaskOk(r.client, s'.tasks[k]) {
      if k != t { StillOk(s.client, r.client, s.tasks[k]); }
    }
  }

  lemma AfterKeeps(s: State, t: TaskId, r: Turned)
    requires Inv(s) && t in s.tasks && TurnOk(s.client, r) && (r.holds ==> s.lock.None? || s.lock == Some(t))
    ensures Inv(After(s, t, r))
  {
    AfterKeepsTasks(s, t, r);
    if r.event.Some? {
      OneMoreEvent(s.client, r.client, s.events, r.event.value);
    } else {
      EventsStillOk(s.client, r.client, s.events);
    }
  }

  lemma PassKeeps(s: State, seconds: real)
    requires Inv(s) && seconds >= 0.0
    ensures Inv(Next(s, Pass(seconds)))
  {
    var s' := Next(s, Pass(seconds));
    forall i | 0 <= i < |s'.events| ensures EventOk(s'.client, s'.events[i]) { assert EventOk(s.client, s.events[i]); }
    forall t | t in s'.tasks ensures TaskOk(s'.client, s'.tasks[t]) { assert TaskOk(s.client, s.tasks[t]); }
  }

  lemma StepKeepsInv(s: State, step: Step)
    requires Inv(s)
    ensures Inv(Next(s, step))
  {
    if Enabled(s, step) {
      match step {
        case Pass(seconds) => PassKeeps(s, seconds);
        case Call(t) =>
        case Turn(t) =>
          TurnIsOk(s.client, s.tasks[t], t);
          AfterKeeps(s, t, TurnOf(s.client, s.tasks[t], t));
        case Respond(t, answer) =>
          AnsweredOk(s.client, s.tasks[t], t, answer);
          AfterKeeps(s, t, Answered(s.client, s.tasks[t], t, s.tasks[t].phase.sent, answer));
        case Cancel(t) =>
          AfterKeeps(s, t, Turned(s.client, s.tasks[t].(phase := Cancelled), false, None));
      }
    }
  }

  lemma {:induction false} RunKeepsInv(s: State, steps: seq<Step>)
    requires Inv(s)
    ensures Inv(Run(s, steps)) && Run(s, steps).client.deadline == s.client.deadline
    decreases |steps|
  {
    if steps != [] {
      StepKeepsInv(s, steps[0]);
      DeadlineStands(s, steps[0]);
      RunKeepsInv(Next(s, steps[0]), steps[1..]);
    }
  }

  lemma DeadlineStands(s: State, step: Step)
    ensures Next(s, step).client.deadline == s.client.deadline
  {
  }

  // ---- the main results ---------------------------------------------------------------------

  /**
   Whatever the tasks of one client do: after a throttle is noted no request starts before the gate it
   closed opens; requests on paced slots start at least the interval apart; and a throttle is noted only for
   a request sent no earlier than the throttle noted before it.
   */
  lemma RequestsAreHeldBack(now: real, deadline: real, steps: seq<Step>)
    ensures var events := Run(Start(now, deadline), steps).events;
            GateHeld(events) && Spaced(events) && NoLateEscalation(events)
  {
    RunKeepsInv(Start(now, deadline), steps);
  }

  /** While the client is paced, a request that starts takes a paced slot. */
  lemma PacedClientsUseSlots(s: State, t: TaskId)
    requires Runnable(s, t)
    ensures var s' := Next(s, Turn(t));
            && t in s'.tasks && (s'.tasks[t].phase.InFlight? <==> |s'.events| > |s.events|)
            && (|s'.events| > |s.events| ==>
              && s'.events == s.events + [s'.events[|s.events|]] && s'.events[|s.events|].Sent?
              && s'.events[|s.events|].at == s.client.now
              && s'.events[|s.events|].throttled == s'.client.paced && (s'.client.paced ==> s'.events[|s.events|].paced))
  {
  }

  /** So over every run, any two requests started in throttled periods start at least the interval apart. */
  lemma ThrottledRequestsAreSpaced(now: real, deadline: real, steps: seq<Step>, i: nat, j: nat)
    requires var events := Run(Start(now, deadline), steps).events;
             i < j < |events| && events[i].Sent? && events[i].throttled && events[j].Sent? && events[j].throttled
    ensures var events := Run(Start(now, deadline), steps).events; events[i].at + PACED_INTERVAL <= events[j].at
  {
    RunKeepsInv(Start(now, deadline), steps);
    var s := Run(Start(now, deadline), steps);
    assert EventOk(s.client, s.events[i]) && EventOk(s.client, s.events[j]);
  }

  /** No task ever sleeps for the throttle past the deadline, and the pace lock is held by a task that will give it up. */
  lemma WaitsEndByTheDeadline(now: real, deadline: real, steps: seq<Step>, t: TaskId)
    requires t in Run(Start(now, deadline), steps).tasks
    ensures var s := Run(Start(now, deadline), steps);
            && (s.tasks[t].phase.Gated? || s.tasks[t].phase.Slotted? ==> s.tasks[t].phase.until <= deadline)
            && (s.lock.Some? ==> s.lock.value in s.tasks && Holding(s.tasks[s.lock.value].phase))
  {
    RunKeepsInv(Start(now, deadline), steps);
  }

  /** How long the account is left alone: as long as the server asks, or longer and longer, but a second to five minutes. */
  function PauseFor(streak: nat, retryAfter: Option<real>): real {
    match retryAfter
    case Some(asked) => if asked < 1.0 then 1.0 else if asked > 300.0 then 300.0 else asked
    case None =>
      if streak == 0 then 5.0 else if streak == 1 then 10.0 else if streak == 2 then 20.0 else if streak == 3 then 40.0 else 60.0
  }

  /**
   The answer to a request sent before the last noted throttle changes nothing but the pacing; any other
   escalates, closes the gate for the pause, and is noted. The call is over exactly if that passes the deadline.
   */
  lemma EscalatesExactly(s: State, t: TaskId, retryAfter: Option<real>)
    requires Inv(s) && Enabled(s, Respond(t, Throttled(retryAfter)))
    ensures var c, c' := s.client, Next(s, Respond(t, Throttled(retryAfter))).client;
            var sent := s.tasks[t].phase.sent;
            && c'.paced && c'.gate >= sent + MIN_THROTTLE_PAUSE
            && (c.last.Some? && sent < c.last.value ==> c' == c.(paced := true))
            && (c.last.None? || sent >= c.last.value ==>
                  && c'.streak == c.streak + 1 && c'.last == Some(c.now) && c.now + MIN_THROTTLE_PAUSE <= c'.gate
                  && c'.gate <= MaxR(c.gate, c.now + MAX_RETRY_AFTER)
                  && (var until := c.now + PauseFor(c.streak, retryAfter); c'.gate == if c.gate > until then c.gate else until))
    ensures var c, s' := s.client, Next(s, Respond(t, Throttled(retryAfter)));
            var sent := s.tasks[t].phase.sent;
            && s'.events == s.events + (if c.last.Some? && sent < c.last.value then [] else [Noted(t, sent, c.now, s'.client.gate)])
            && t in s'.tasks && s'.tasks[t].phase == if s'.client.gate > c.deadline then RateLimited else Ready
  {
    assert TaskOk(s.client, s.tasks[t]);
    NotingOk(s.client, s.tasks[t].phase.sent, retryAfter);
  }

  /** Any other answer is retried exactly if it is a first refused token, or one of the first two transient failures. */
  lemma RetriedExactly(s: State, t: TaskId, answer: Answer)
    requires Enabled(s, Respond(t, answer)) && !answer.Throttled?
    ensures var x, s' := s.tasks[t], Next(s, Respond(t, answer));
            && s'.client == s.client && s'.events == s.events && t in s'.tasks
            && (s'.tasks[t].phase == Ready <==> answer.Unauthorized? && !x.refreshed)
            && (s'.tasks[t].phase.Backing? <==> answer.Transient? && x.transients < 2)
            && (s'.tasks[t].phase.Backing? ==> s'.tasks[t].phase.until == s.client.now + answer.delay)
            && (s'.tasks[t].phase == Returned <==>
                  answer.Fine? || (answer.Unauthorized? && x.refreshed) || (answer.Transient? && x.transients >= 2))
            && s'.tasks[t].refreshed == (x.refreshed || answer.Unauthorized?)
  {
  }

  /** After a transient failure a call waits until its delay is over, and is then ready for another attempt. */
  lemma BackingWaits(s: State, t: TaskId)
    requires t in s.tasks && s.tasks[t].phase.Backing?
    ensures s.client.now < s.tasks[t].phase.until ==> Next(s, Turn(t)) == s
    ensures s.client.now >= s.tasks[t].phase.until && s.lock != Some(t) ==>
              Next(s, Turn(t)) == s.(tasks := s.tasks[t := s.tasks[t].(phase := Ready)])
  {
  }

  /**
   Every call makes a bounded number of attempts: four, for the first one, one token refresh and two
   transient failures, and one more for each second from its first attempt to the deadline.
   */
  lemma AttemptsAreBounded(now: real, deadline: real, steps: seq<Step>, t: TaskId)
    requires t in Run(Start(now, deadline), steps).tasks
    ensures var x := Run(Start(now, deadline), steps).tasks[t];
            x.attempts as real <= 4.0 + (if deadline > x.first then deadline - x.first else 0.0)
  {
    RunKeepsInv(Start(now, deadline), steps);
    var s := Run(Start(now, deadline), steps);
    var x := s.tasks[t];
    assert TaskOk(s.client, x);
    assert x.attempts <= x.throttles + 4;
  }
}
