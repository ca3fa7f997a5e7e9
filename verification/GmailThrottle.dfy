/**
 The shared throttle gate and pacer of src/email/gmail_api_client.py.

 One client serves many concurrent tasks on one event loop, so a task runs alone from one await to the
 next; each step below is such a stretch of one task, or time passing. Clock readings are reals, and a
 stretch takes no time.
 */
module GmailThrottle {
  import opened Common

  type TaskId = nat

  const MIN_THROTTLE_PAUSE: real := 1.0
  const MAX_RETRY_AFTER: real := 300.0
  const PACED_INTERVAL: real := 0.1
  const PACE_HOLD: real := 60.0
  const BACKOFF: seq<real> := [5.0, 10.0, 20.0, 40.0, 60.0]

  function MaxR(a: real, b: real): real { if a >= b then a else b }

  function MinR(a: real, b: real): real { if a <= b then a else b }

  /** The fields all tasks share. */
  datatype Client = Client(
    now: real,
    deadline: real,         // no throttle wait may run past it
    gate: real,             // _gate_until
    last: Option<real>,     // _last_throttle_at
    streak: nat,
    paced: bool,
    nextSlot: real)

  /**
   Ready: at the top of _admit. Gated: asleep until the gate opens. Queued: waiting for the pace lock.
   Pacing: holding it. Slotted: holding it, asleep until its slot. InFlight: the request is out.
   */
  datatype Phase =
    | Ready
    | Gated(until: real)
    | Queued
    | Pacing
    | Slotted(until: real)
    | InFlight(sent: real)
    | Backing(until: real)   // the sleep after a transient failure
    | Returned
    | RateLimited            // GmailRateLimited was raised
    | Cancelled

  /** One call of _send. `first` and `throttled` are when it first sent, and last sent what was throttled and retried. */
  datatype Task = Task(phase: Phase, refreshed: bool, transients: nat, attempts: nat, throttles: nat, first: real, throttled: real)

  /** Sent: a request started, on a paced slot or not, in a throttled period or not. Noted: a throttle closed the gate. */
  datatype Event = Sent(t: TaskId, at: real, paced: bool, throttled: bool) | Noted(t: TaskId, sent: real, at: real, until: real)

  datatype State = State(client: Client, lock: Option<TaskId>, tasks: map<TaskId, Task>, events: seq<Event>)

  datatype Answer = Fine | Unauthorized | Throttled(retryAfter: Option<real>) | Transient(delay: real)

  datatype Step =
    | Pass(seconds: real)
    | Call(t: TaskId)
    | Turn(t: TaskId)                  // the task runs to its next await
    | Respond(t: TaskId, answer: Answer)
    | Cancel(t: TaskId)

  function Start(now: real, deadline: real): State {
    State(Client(now, deadline, 0.0, None, 0, false, 0.0), None, map[], [])
  }

  // ---- one stretch of a task ----------------------------------------------------------------

  /** What a stretch leaves behind: shared fields, the task, whether it holds the pace lock, and what happened. */
  datatype Turned = Turned(client: Client, task: Task, holds: bool, event: Option<Event>)

  function Sending(c: Client, x: Task): Task {
    x.(phase := InFlight(c.now), attempts := x.attempts + 1, first := if x.attempts == 0 then c.now else x.first)
  }

  /** Quiet since the last pause ended: the throttled period is over. */
  function Settled(c: Client): Client {
    if c.paced && c.now - c.gate >= PACE_HOLD then c.(paced := false, streak := 0) else c
  }

  /** One round of _admit. */
  function Admit(c: Client, x: Task, t: TaskId): Turned {
    if c.gate > c.now then
      Turned(c, x.(phase := if c.gate > c.deadline then RateLimited else Gated(c.gate)), false, None)
    else
      var c' := Settled(c);
      if !c'.paced then Turned(c', Sending(c', x), false, Some(Sent(t, c.now, false, c'.paced)))
      else Turned(c', x.(phase := Queued), false, None)
  }

  /** One round of _claim_paced_slot, holding the lock. */
  function Claim(c: Client, x: Task, t: TaskId): Turned {
    if c.gate > c.now then Turned(c, x.(phase := Ready), false, None)
    else
      var slot := MaxR(c.nextSlot, c.now);
      if slot > c.deadline then Turned(c, x.(phase := RateLimited), false, None)
      else if slot > c.now then Turned(c, x.(phase := Slotted(slot)), true, None)
      else Turned(c.(nextSlot := c.now + PACED_INTERVAL), Sending(c, x), false, Some(Sent(t, c.now, true, c.paced)))
  }

  function Pause(c: Client, retryAfter: Option<real>): real {
    var asked := if retryAfter.Some? then retryAfter.value
                 else BACKOFF[if c.streak < |BACKOFF| - 1 then c.streak else |BACKOFF| - 1];
    MinR(MaxR(asked, MIN_THROTTLE_PAUSE), MAX_RETRY_AFTER)
  }

  /** A fresh throttle: not the answer to a request sent before the last one was noted. */
  predicate FreshThrottle(c: Client, sent: real) { c.last.None? || sent >= c.last.value }

  /** _note_throttle, up to its raise. */
  function Noting(c: Client, sent: real, retryAfter: Option<real>): Client {
    if FreshThrottle(c, sent)
    then c.(paced := true, streak := c.streak + 1, last := Some(c.now), gate := MaxR(c.gate, c.now + Pause(c, retryAfter)))
    else c.(paced := true)
  }

  /** The answer to a request sent at `sent`. */
  function Answered(c: Client, x: Task, t: TaskId, sent: real, answer: Answer): Turned {
    match answer
    case Fine => Turned(c, x.(phase := Returned), false, None)
    case Unauthorized =>
      if x.refreshed then Turned(c, x.(phase := Returned), false, None)
      else Turned(c, x.(phase := Ready, refreshed := true), false, None)
    case Throttled(retryAfter) =>
      var c' := Noting(c, sent, retryAfter);
      var event := if FreshThrottle(c, sent) then Some(Noted(t, sent, c.now, c'.gate)) else None;
      if c'.gate > c'.deadline then Turned(c', x.(phase := RateLimited), false, event)
      else Turned(c', x.(phase := Ready, throttles := x.throttles + 1, throttled := sent), false, event)
    case Transient(delay) =>
      if x.transients < 2 then Turned(c, x.(phase := Backing(c.now + delay), transients := x.transients + 1), false, None)
      else Turned(c, x.(phase := Returned), false, None)
  }

  /** Where a task can run: its sleep is over, the lock is its own or free. */
  predicate Runnable(s: State, t: TaskId) {
    && t in s.tasks
    && match s.tasks[t].phase
       case Ready => true
       case Gated(until) => s.client.now >= until
       case Backing(until) => s.client.now >= until
       case Queued => s.lock == None
       case Pacing => true
       case Slotted(until) => s.client.now >= until
       case _ => false
  }

  function TurnOf(c: Client, x: Task, t: TaskId): Turned {
    match x.phase
    case Gated(_) => Admit(c, x.(phase := Ready), t)
    case Backing(_) => Turned(c, x.(phase := Ready), false, None)
    case Queued => Turned(c, x.(phase := Pacing), true, None)
    case Pacing => Claim(c, x, t)
    case Slotted(_) => Claim(c, x, t)
    case _ => Admit(c, x, t)
  }

  function After(s: State, t: TaskId, r: Turned): State {
    State(r.client,
          if r.holds then Some(t) else if s.lock == Some(t) then None else s.lock,
          s.tasks[t := r.task],
          if r.event.Some? then s.events + [r.event.value] else s.events)
  }

  predicate Enabled(s: State, step: Step) {
    match step
    case Pass(seconds) => seconds >= 0.0
    case Call(t) => t !in s.tasks
    case Turn(t) => Runnable(s, t)
    case Respond(t, answer) => t in s.tasks && s.tasks[t].phase.InFlight? && (answer.Transient? ==> answer.delay >= 0.0)
                               && (answer.Throttled? && answer.retryAfter.Some? ==> answer.retryAfter.value >= 0.0)
    case Cancel(t) => t in s.tasks
  }

  function Next(s: State, step: Step): State {
    if !Enabled(s, step) then s else
    match step
    case Pass(seconds) => s.(client := s.client.(now := s.client.now + seconds))
    case Call(t) => s.(tasks := s.tasks[t := Task(Ready, false, 0, 0, 0, 0.0, 0.0)])
    case Turn(t) => After(s, t, TurnOf(s.client, s.tasks[t], t))
    case Respond(t, answer) => After(s, t, Answered(s.client, s.tasks[t], t, s.tasks[t].phase.sent, answer))
    case Cancel(t) => After(s, t, Turned(s.client, s.tasks[t].(phase := Cancelled), false, None))
  }

  function Run(s: State, steps: seq<Step>): State
    decreases |steps|
  {
    if steps == [] then s else Run(Next(s, steps[0]), steps[1..])
  }
}
