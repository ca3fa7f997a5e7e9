/**
 The fair job scheduler of src/sync_supervisor.py: independently due accounts, one killable attempt each,
 a bounded number at once.
 */
module JobPool {
  import opened Common

  type AccountId = nat
  type Time = int

  datatype Attempt = Attempt(token: nat, started: Time, deadline: Time, stopping: bool)

  datatype Reason = Deadline | Success | Failed

  datatype Result = Result(token: nat, started: Time, finished: Time, code: int, reason: Reason)

  datatype Config = Config(concurrency: int, budget: int, interval: int)

  /** The dictionaries of the pool, and how many attempts were ever spawned and reaped. */
  datatype Pool = Pool(
    active: map<AccountId, Attempt>,
    due: map<AccountId, Time>,
    completions: map<AccountId, nat>,
    results: map<AccountId, Result>,
    spawned: nat,
    reaped: nat)

  /** What one tick finds: the clock, the enabled accounts with their earliest start, and the exit codes polled. */
  datatype Look = Look(now: Time, accounts: map<AccountId, Time>, polls: AccountId -> Option<int>)

  function Width(c: Config): int { Max(1, c.concurrency) }

  /** How long an account rests: a failure at least 30 seconds. */
  function Rest(c: Config, code: int): int { if code != 0 then Max(30, c.interval) else c.interval }

  // ---- what a tick does, part by part -------------------------------------------------------

  function Stopped(a: Attempt, now: Time): Attempt {
    if now >= a.deadline then a.(stopping := true) else a
  }

  function ResultOf(a: Attempt, now: Time, code: int): Result {
    Result(a.token, a.started, now, code,
           if Stopped(a, now).stopping then Deadline else if code == 0 then Success else Failed)
  }

  /** One round of the reaping loop: an account whose attempt has exited rests, any other stays active. */
  function ReapOne(p: Pool, c: Config, l: Look, id: AccountId): Pool {
    if id !in p.active then p
    else if l.polls(id).None? then p.(active := p.active[id := Stopped(p.active[id], l.now)])
    else
      var code := l.polls(id).value;
      Pool(p.active - {id}, p.due[id := l.now + Rest(c, code)],
           p.completions[id := (if id in p.completions then p.completions[id] else 0) + 1],
           p.results[id := ResultOf(p.active[id], l.now, code)], p.spawned, p.reaped + 1)
  }

  function Reaped(p: Pool, c: Config, l: Look, ids: seq<AccountId>): Pool {
    if ids == [] then p else ReapOne(Reaped(p, c, l, ids[..|ids| - 1]), c, l, ids[|ids| - 1])
  }

  /** Accounts that are gone, and have nothing running, are forgotten. */
  function Forgotten(p: Pool, l: Look): Pool {
    var lost := set id | id in p.due && id !in l.accounts && id !in p.active;
    p.(due := p.due - lost, results := p.results - lost, completions := p.completions - lost)
  }

  /** An account seen for the first time is due now. */
  function Admitted(p: Pool, l: Look): Pool {
    p.(due := map id | id in p.due.Keys + l.accounts.Keys :: if id in p.due then p.due[id] else l.now)
  }

  datatype Turn = Turn(due: Time, id: AccountId)

  predicate Earlier(a: Turn, b: Turn) { a.due < b.due || (a.due == b.due && a.id < b.id) }

  predicate Ordered(ts: seq<Turn>) {
    forall i, j :: 0 <= i < j < |ts| ==> Earlier(ts[i], ts[j])
  }

  predicate Eligible(p: Pool, l: Look, id: AccountId) { id in l.accounts && id !in p.active && id in p.due }

  function TurnOf(p: Pool, l: Look, id: AccountId): Turn
    requires Eligible(p, l, id)
  {
    Turn(Max(p.due[id], l.accounts[id]), id)
  }

  /** `sorted(...)`: the eligible accounts in order of when they became startable, then by id. */
  ghost predicate Queue(p: Pool, l: Look, ts: seq<Turn>) {
    && Ordered(ts)
    && (forall t :: t in ts ==> Eligible(p, l, t.id) && t == TurnOf(p, l, t.id))
    && (forall id :: Eligible(p, l, id) ==> TurnOf(p, l, id) in ts)
  }

  function Spawned(p: Pool, c: Config, l: Look, id: AccountId): Pool {
    p.(active := p.active[id := Attempt(p.spawned, l.now, l.now + c.budget, false)], spawned := p.spawned + 1)
  }

  /** The starting loop over a queue: until every slot is taken or the next is not due yet. */
  function Started(p: Pool, c: Config, l: Look, ts: seq<Turn>): Pool
    decreases |ts|
  {
    if ts == [] || |p.active| >= Width(c) || ts[0].due > l.now then p
    else Started(Spawned(p, c, l, ts[0].id), c, l, ts[1..])
  }

  lemma StartedFrom(p: Pool, c: Config, l: Look, ts: seq<Turn>, i: nat)
    requires i < |ts|
    ensures Started(p, c, l, ts[i..])
            == if |p.active| >= Width(c) || ts[i].due > l.now then p else Started(Spawned(p, c, l, ts[i].id), c, l, ts[i + 1..])
  {
    assert ts[i..][0] == ts[i] && ts[i..][1..] == ts[i + 1..];
  }

  /** The pool as the starting loop finds it; `order` is the order of the active dictionary. */
  function Prepared(p: Pool, c: Config, l: Look, order: seq<AccountId>): Pool {
    Admitted(Forgotten(Reaped(p, c, l, order), l), l)
  }

  // ---- the class ----------------------------------------------------------------------------

  class Supervisor {
    const config: Config
    var active: map<AccountId, Attempt>
    var due: map<AccountId, Time>
    var completions: map<AccountId, nat>
    var results: map<AccountId, Result>
    var spawned: nat
    var reaped: nat

    function Contents(): Pool
      reads this
    {
      Pool(active, due, completions, results, spawned, reaped)
    }

    method ReapJob(l: Look, id: AccountId)
      requires id in active
      modifies this
      ensures Contents() == ReapOne(old(Contents()), config, l, id)
      ensures active.Keys == old(active).Keys || active.Keys == old(active).Keys - {id}
    {
      var job := Stopped(active[id], l.now);
      match l.polls(id) {
        case None => active := active[id := job];
        case Some(code) =>
          results := results[id := Result(job.token, job.started, l.now, code,
                                          if job.stopping then Deadline else if code == 0 then Success else Failed)];
          completions := completions[id := (if id in completions then completions[id] else 0) + 1];
          due := due[id := l.now + Rest(config, code)];
          active := active - {id};
          reaped := reaped + 1;
      }
    }

    /** First loop of `tick`: stop what is over its deadline, reap what has exited. */
    method Reap(l: Look, order: seq<AccountId>)
      requires Distinct(order) && forall id :: id in order <==> id in active
      modifies this
      ensures Contents() == Reaped(old(Contents()), config, l, order)
    {
      for i := 0 to |order|
        invariant Contents() == Reaped(old(Contents()), config, l, order[..i])
        invariant forall k :: i <= k < |order| ==> order[k] in active.Keys
      {
        assert order[..i + 1][..i] == order[..i];
        ReapJob(l, order[i]);
      }
      assert order[..|order|] == order;
    }

    /** Second and third loop: forget what is gone, admit what is new. */
    method Refresh(l: Look)
      modifies `due, `results, `completions
      ensures Contents() == Admitted(Forgotten(old(Contents()), l), l)
    {
      var lost := set id | id in due && id !in l.accounts && id !in active;
      due, results, completions := due - lost, results - lost, completions - lost;
      due := map id | id in due.Keys + l.accounts.Keys :: if id in due then due[id] else l.now;
    }

    /** `sorted(...)`, by insertion. */
    method Sorted(l: Look) returns (ts: seq<Turn>)
      requires forall id :: id in l.accounts ==> id in due
      ensures Queue(Contents(), l, ts)
    {
      ts := [];
      var rest := l.accounts.Keys - active.Keys;
      while rest != {}
        invariant rest <= l.accounts.Keys - active.Keys
        invariant Ordered(ts)
        invariant forall t :: t in ts ==> Eligible(Contents(), l, t.id) && t.id !in rest && t == TurnOf(Contents(), l, t.id)
        invariant forall id :: Eligible(Contents(), l, id) && id !in rest ==> TurnOf(Contents(), l, id) in ts
        decreases rest
      {
        var id :| id in rest;
        var t := Turn(Max(due[id], l.accounts[id]), id);
        InsertedIsOrdered(ts, t);
        ts := Inserted(ts, t);
        rest := rest - {id};
      }
    }

    method Spawn(l: Look, id: AccountId)
      modifies `active, `spawned
      ensures Contents() == Spawned(old(Contents()), config, l, id)
    {
      active := active[id := Attempt(spawned, l.now, l.now + config.budget, false)];
      spawned := spawned + 1;
    }

    /** The last loop of `tick`. */
    method Start(l: Look, ts: seq<Turn>)
      modifies `active, `spawned
      ensures Contents() == Started(old(Contents()), config, l, ts)
    {
      ghost var was := Contents();
      for i := 0 to |ts|
        invariant Started(Contents(), config, l, ts[i..]) == Started(was, config, l, ts)
      {
        StartedFrom(Contents(), config, l, ts, i);
        if |active| >= Width(config) || ts[i].due > l.now { break; }
        Spawn(l, ts[i].id);
      }
    }

    method Tick(l: Look, order: seq<AccountId>) returns (ghost ts: seq<Turn>)
      requires Distinct(order) && forall id :: id in order <==> id in active
      modifies this
      ensures Queue(Prepared(old(Contents()), config, l, order), l, ts)
      ensures Contents() == Started(Prepared(old(Contents()), config, l, order), config, l, ts)
    {
      Reap(l, order);
      Refresh(l);
      var eligible := Sorted(l);
      ts := eligible;
      Start(l, eligible);
    }
  }

  function Inserted(ts: seq<Turn>, t: Turn): seq<Turn> {
    if ts == [] || Earlier(t, ts[0]) then [t] + ts else [ts[0]] + Inserted(ts[1..], t)
  }

  lemma {:induction false} InsertedIsOrdered(ts: seq<Turn>, t: Turn)
    requires Ordered(ts) && forall k :: k in ts ==> k.id != t.id
    ensures Ordered(Inserted(ts, t)) && forall k :: k in Inserted(ts, t) <==> k in ts || k == t
  {
    if ts != [] && !Earlier(t, ts[0]) {
      assert forall k :: k in ts[1..] ==> k in ts && Earlier(ts[0], k);
      InsertedIsOrdered(ts[1..], t);
      assert Earlier(ts[0], t);
      assert forall k :: k in ts <==> k == ts[0] || k in ts[1..];
    }
  }
}
