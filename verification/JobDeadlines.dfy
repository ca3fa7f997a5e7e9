/** What the ticks of JobPool make of an attempt's time budget: when it is stopped, and what its result says. */
module JobDeadlines {
  import opened Common
  import opened JobPool
  import opened JobFairness

  /** An attempt as the last tick, at `last`, has left it: stopping just if that tick found its budget used up. */
  predicate OnTime(a: Attempt, c: Config, last: Time) {
    && a.started <= last && a.deadline == a.started + c.budget
    && (a.stopping ==> last >= a.started + c.budget)
    && (c.budget > 0 && last >= a.started + c.budget ==> a.stopping)
  }

  /** A result says 'deadline' just if the attempt outlived its budget, and otherwise goes by the exit code. */
  predicate Truthful(r: Result, c: Config) {
    && (r.reason == Deadline <==> r.finished >= r.started + c.budget)
    && (r.reason == Success <==> r.finished < r.started + c.budget && r.code == 0)
    && (r.reason == Failed <==> r.finished < r.started + c.budget && r.code != 0)
  }

  ghost predicate Timely(p: Pool, c: Config, last: Time) {
    && (forall id :: id in p.active ==> OnTime(p.active[id], c, last))
    && (forall id :: id in p.results ==> Truthful(p.results[id], c))
  }

  lemma StoppedOnTime(a: Attempt, c: Config, last: Time, now: Time, code: int)
    requires OnTime(a, c, last) && last <= now
    ensures OnTime(Stopped(a, now), c, now) && Truthful(ResultOf(a, now, code), c)
  {
  }

  lemma {:induction false} ReapedTimely(p: Pool, c: Config, l: Look, ids: seq<AccountId>, last: Time)
    requires Timely(p, c, last) && last <= l.now
    ensures var r := Reaped(p, c, l, ids);
            && (forall id :: id in r.active ==>
                  id in p.active && r.active[id] == if id in ids then Stopped(p.active[id], l.now) else p.active[id])
            && (forall id :: id in r.results ==> Truthful(r.results[id], c))
  {
    if ids != [] {
      var init, last' := ids[..|ids| - 1], ids[|ids| - 1];
      ReapedTimely(p, c, l, init, last);
      assert forall id :: id in ids <==> id in init || id == last';
      var r := Reaped(p, c, l, init);
      if last' in r.active && l.polls(last').Some? {
        StoppedOnTime(p.active[last'], c, last, l.now, l.polls(last').value);
      }
    }
  }

  lemma {:induction false} StartedTimely(p: Pool, c: Config, l: Look, ts: seq<Turn>)
    requires Timely(p, c, l.now)
    ensures Timely(Started(p, c, l, ts), c, l.now)
    decreases |ts|
  {
    if ts != [] && |p.active| < Width(c) && ts[0].due <= l.now {
      StartedTimely(Spawned(p, c, l, ts[0].id), c, l, ts[1..]);
    }
  }

  lemma TickTimely(p: Pool, c: Config, r: Round, last: Time)
    requires Timely(p, c, last) && ValidRound(p, c, r) && last <= r.look.now
    ensures Timely(After(p, c, r), c, r.look.now)
  {
    ReapedTimely(p, c, r.look, r.order, last);
    var q := Reaped(p, c, r.look, r.order);
    forall id | id in q.active ensures OnTime(q.active[id], c, r.look.now) {
      StoppedOnTime(p.active[id], c, last, r.look.now, 0);
    }
    StartedTimely(Ready(p, c, r), c, r.look, r.queue);
  }

  /** The clock of the ticks does not step back. */
  ghost predicate Clocked(rounds: seq<Round>, from: Time)
    decreases |rounds|
  {
    rounds != [] ==> from <= rounds[0].look.now && Clocked(rounds[1..], rounds[0].look.now)
  }

  function LastTick(rounds: seq<Round>, from: Time): Time {
    if rounds == [] then from else rounds[|rounds| - 1].look.now
  }

  lemma {:induction false} RunTimely(p: Pool, c: Config, rounds: seq<Round>, from: Time)
    requires Timely(p, c, from) && ValidRun(p, c, rounds) && Clocked(rounds, from)
    ensures Timely(Final(p, c, rounds), c, LastTick(rounds, from))
    decreases |rounds|
  {
    if rounds != [] {
      TickTimely(p, c, rounds[0], from);
      RunTimely(After(p, c, rounds[0]), c, rounds[1..], rounds[0].look.now);
    }
  }

  const Idle: Pool := Pool(map[], map[], map[], map[], 0, 0)

  /**
   From an empty pool, after any ticks: an attempt's deadline is its budget after its start, it is stopped
   just when a tick finds it there or past, and a result says so just if it came that late.
   */
  lemma BudgetsAreKept(c: Config, rounds: seq<Round>, from: Time, id: AccountId)
    requires ValidRun(Idle, c, rounds) && Clocked(rounds, from)
    ensures var p, last := Final(Idle, c, rounds), LastTick(rounds, from);
            && (id in p.active ==>
                  var a := p.active[id];
                  && a.started <= last && a.deadline == a.started + c.budget
                  && (a.stopping ==> last >= a.started + c.budget)
                  && (c.budget > 0 ==> (a.stopping <==> last >= a.started + c.budget)))
            && (id in p.results ==>
                  var r := p.results[id];
                  && (r.reason == Deadline <==> r.finished >= r.started + c.budget)
                  && (r.reason == Success <==> r.finished < r.started + c.budget && r.code == 0)
                  && (r.reason == Failed <==> r.finished < r.started + c.budget && r.code != 0))
  {
    RunTimely(Idle, c, rounds, from);
  }
}
