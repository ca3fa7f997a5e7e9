/** What the ticks of JobPool keep: conservation of attempts, the bound on concurrency, and fairness. */
module JobFairness {
  import opened Common
  import opened JobPool

  /** One tick: what it found, the order of the active dictionary, and the queue it sorted. */
  datatype Round = Round(look: Look, order: seq<AccountId>, queue: seq<Turn>)

  ghost predicate ValidRound(p: Pool, c: Config, r: Round) {
    && Distinct(r.order) && (forall id :: id in r.order <==> id in p.active)
    && Queue(Prepared(p, c, r.look, r.order), r.look, r.queue)
  }

  function Ready(p: Pool, c: Config, r: Round): Pool { Prepared(p, c, r.look, r.order) }

  function After(p: Pool, c: Config, r: Round): Pool { Started(Ready(p, c, r), c, r.look, r.queue) }

  predicate StartedIn(p: Pool, c: Config, r: Round, id: AccountId) {
    id in After(p, c, r).active && id !in Ready(p, c, r).active
  }

  // ---- conservation -------------------------------------------------------------------------

  ghost predicate Sound(p: Pool, c: Config) {
    p.spawned == p.reaped + |p.active| && |p.active| <= if c.concurrency < 1 then 1 else c.concurrency
  }

  lemma {:induction false} ReapedKeeps(p: Pool, c: Config, l: Look, ids: seq<AccountId>)
    ensures var r := Reaped(p, c, l, ids);
            && r.active.Keys <= p.active.Keys && r.spawned == p.spawned
            && r.reaped + |r.active| == p.reaped + |p.active| && |r.active| <= |p.active|
  {
    if ids != [] {
      var init, id := ids[..|ids| - 1], ids[|ids| - 1];
      ReapedKeeps(p, c, l, init);
      var r := Reaped(p, c, l, init);
      if id in r.active {
        assert r.active[id := Stopped(r.active[id], l.now)].Keys == r.active.Keys;
        assert (r.active - {id}).Keys == r.active.Keys - {id};
      }
    }
  }

  predicate DistinctIds(ts: seq<Turn>) {
    forall i, j :: 0 <= i < j < |ts| ==> ts[i].id != ts[j].id
  }

  /** The turns a starting loop still has before it. */
  predicate Awaiting(p: Pool, ts: seq<Turn>) {
    DistinctIds(ts) && forall i :: 0 <= i < |ts| ==> ts[i].id !in p.active
  }

  lemma QueueAwaits(p: Pool, l: Look, ts: seq<Turn>)
    requires Queue(p, l, ts)
    ensures Awaiting(p, ts)
  {
    forall i | 0 <= i < |ts| ensures ts[i].id !in p.active && ts[i] == TurnOf(p, l, ts[i].id) {
      assert ts[i] in ts;
    }
  }

  lemma SpawnedKeeps(p: Pool, c: Config, l: Look, id: AccountId)
    requires Sound(p, c) && id !in p.active && |p.active| < Width(c)
    ensures Sound(Spawned(p, c, l, id), c)
  {
    assert Spawned(p, c, l, id).active.Keys == p.active.Keys + {id};
  }

  lemma OthersAwait(p: Pool, c: Config, l: Look, ts: seq<Turn>)
    requires Awaiting(p, ts) && ts != []
    ensures Awaiting(Spawned(p, c, l, ts[0].id), ts[1..])
  {
  }

  lemma {:induction false} StartedKeeps(p: Pool, c: Config, l: Look, ts: seq<Turn>)
    requires Sound(p, c) && Awaiting(p, ts)
    ensures Sound(Started(p, c, l, ts), c)
    decreases |ts|
  {
    if ts != [] && |p.active| < Width(c) && ts[0].due <= l.now {
      SpawnedKeeps(p, c, l, ts[0].id);
      OthersAwait(p, c, l, ts);
      StartedKeeps(Spawned(p, c, l, ts[0].id), c, l, ts[1..]);
    }
  }

  /** A tick keeps the books: every attempt spawned is reaped or active, and no more are active than allowed. */
  lemma TickKeepsBooks(p: Pool, c: Config, r: Round)
    requires Sound(p, c) && ValidRound(p, c, r)
    ensures Sound(After(p, c, r), c)
  {
    ReapedKeeps(p, c, r.look, r.order);
    QueueAwaits(Ready(p, c, r), r.look, r.queue);
    StartedKeeps(Ready(p, c, r), c, r.look, r.queue);
  }

  // ---- what one tick does to one account ----------------------------------------------------

  /** Reaping lets an account go only to rest from now on; no other due time moves. */
  lemma {:induction false} ReapedDue(p: Pool, c: Config, l: Look, ids: seq<AccountId>, id: AccountId)
    requires c.interval > 0
    ensures var r := Reaped(p, c, l, ids);
            && (id in r.active ==> id in p.active)
            && (id in p.active && id !in r.active ==> id in r.due && r.due[id] > l.now)
            && (id !in p.active || id in r.active ==> (id in r.due <==> id in p.due) && (id in p.due ==> r.due[id] == p.due[id]))
  {
    if ids != [] {
      ReapedDue(p, c, l, ids[..|ids| - 1], id);
    }
  }

  lemma {:induction false} StartedMeans(p: Pool, c: Config, l: Look, ts: seq<Turn>, id: AccountId)
    requires Awaiting(p, ts)
    ensures var s := Started(p, c, l, ts);
            && s.due == p.due && (id in p.active ==> id in s.active)
            && (id in s.active && id !in p.active ==> exists k :: 0 <= k < |ts| && ts[k].id == id && ts[k].due <= l.now)
    decreases |ts|
  {
    if ts != [] && |p.active| < Width(c) && ts[0].due <= l.now {
      StartedMeans(Spawned(p, c, l, ts[0].id), c, l, ts[1..], id);
      if id in Started(p, c, l, ts).active && id !in p.active && id != ts[0].id {
        var k :| 0 <= k < |ts[1..]| && ts[1..][k].id == id && ts[1..][k].due <= l.now;
        assert ts[k + 1].id == id;
      }
    }
  }

  /** Nobody is started before an account earlier in the queue. */
  lemma {:induction false} NoOvertaking(p: Pool, c: Config, l: Look, ts: seq<Turn>, i: nat, j: nat)
    requires Awaiting(p, ts) && i < j < |ts| && ts[j].id in Started(p, c, l, ts).active
    ensures ts[i].id in Started(p, c, l, ts).active
    decreases |ts|
  {
    if |p.active| < Width(c) && ts[0].due <= l.now {
      var p' := Spawned(p, c, l, ts[0].id);
      if i == 0 {
        StartedMeans(p', c, l, ts[1..], ts[0].id);
      } else {
        NoOvertaking(p', c, l, ts[1..], i - 1, j - 1);
      }
    }
  }

  // ---- what a tick does for sure --------------------------------------------------------------

  /** Whatever the order of the loop: an attempt that has exited is recorded and its account rests, any other goes on. */
  lemma {:induction false} ReapedExactly(p: Pool, c: Config, l: Look, ids: seq<AccountId>, id: AccountId)
    requires Distinct(ids) && id in ids && id in p.active
    ensures var r := Reaped(p, c, l, ids);
            match l.polls(id)
            case None => id in r.active && r.active[id] == Stopped(p.active[id], l.now)
            case Some(code) =>
              && id !in r.active && id in r.due && id in r.results && id in r.completions
              && r.due[id] == l.now + (if code == 0 then c.interval else if c.interval < 30 then 30 else c.interval)
              && r.completions[id] == (if id in p.completions then p.completions[id] else 0) + 1
              && r.results[id].finished == l.now && r.results[id].code == code && r.results[id].token == p.active[id].token
              && (r.results[id].reason == Deadline <==> p.active[id].stopping || l.now >= p.active[id].deadline)
              && (r.results[id].reason == Success ==> code == 0)
  {
    var init, last := ids[..|ids| - 1], ids[|ids| - 1];
    if last == id {
      assert id !in init;
      ReapedSpares(p, c, l, init, id);
    } else {
      assert id in init;
      ReapedExactly(p, c, l, init, id);
    }
  }

  lemma {:induction false} ReapedSpares(p: Pool, c: Config, l: Look, ids: seq<AccountId>, id: AccountId)
    requires id !in ids
    ensures var r := Reaped(p, c, l, ids);
            && (id in r.active <==> id in p.active) && (id in p.active ==> r.active[id] == p.active[id])
            && (id in r.completions <==> id in p.completions) && (id in p.completions ==> r.completions[id] == p.completions[id])
  {
    if ids != [] {
      ReapedSpares(p, c, l, ids[..|ids| - 1], id);
    }
  }

  lemma {:induction false} StartedFills(p: Pool, c: Config, l: Look, ts: seq<Turn>, k: nat)
    requires Awaiting(p, ts) && k < |ts| && ts[k].due <= l.now && Ordered(ts)
    requires ts[k].id !in Started(p, c, l, ts).active
    ensures |Started(p, c, l, ts).active| >= Width(c)
    decreases |ts|
  {
    assert k > 0 ==> Earlier(ts[0], ts[k]);
    if |p.active| < Width(c) && ts[0].due <= l.now {
      var p' := Spawned(p, c, l, ts[0].id);
      StartedMeans(p', c, l, ts[1..], ts[0].id);
      StartedFills(p', c, l, ts[1..], k - 1);
    }
  }

  /** A tick leaves a due account waiting only if every slot is taken. */
  lemma WorkConserving(p: Pool, c: Config, r: Round, x: AccountId)
    requires ValidRound(p, c, r) && Eligible(Ready(p, c, r), r.look, x) && TurnOf(Ready(p, c, r), r.look, x).due <= r.look.now
    ensures x in After(p, c, r).active || |After(p, c, r).active| >= if c.concurrency < 1 then 1 else c.concurrency
  {
    var q := Ready(p, c, r);
    QueueAwaits(q, r.look, r.queue);
    var k :| 0 <= k < |r.queue| && r.queue[k] == TurnOf(q, r.look, x);
    if x !in After(p, c, r).active {
      StartedFills(q, c, r.look, r.queue, k);
    }
  }

  lemma {:induction false} StartedKeepsBooks(p: Pool, c: Config, l: Look, ts: seq<Turn>)
    ensures var s := Started(p, c, l, ts); s.due == p.due && s.results == p.results && s.completions == p.completions
    decreases |ts|
  {
    if ts != [] && |p.active| < Width(c) && ts[0].due <= l.now {
      StartedKeepsBooks(Spawned(p, c, l, ts[0].id), c, l, ts[1..]);
    }
  }

  /** Gone from the enabled accounts, with nothing running any more. */
  predicate Gone(q: Pool, l: Look, id: AccountId) { id in q.due && id !in l.accounts && id !in q.active }

  /**
   A tick forgets an account, with its result and its count, exactly if it is not enabled and nothing of it
   is left running; an account seen for the first time is due now, any other when reaping left it due.
   */
  lemma AccountsComeAndGo(p: Pool, c: Config, r: Round, id: AccountId)
    ensures var q, a := Reaped(p, c, r.look, r.order), After(p, c, r);
            && (id in a.due <==> id in r.look.accounts || (id in q.due && id in q.active))
            && (id in a.due ==> a.due[id] == if id in q.due then q.due[id] else r.look.now)
            && (id in a.results <==> id in q.results && !Gone(q, r.look, id))
            && (id in a.results ==> a.results[id] == q.results[id])
            && (id in a.completions <==> id in q.completions && !Gone(q, r.look, id))
            && (id in a.completions ==> a.completions[id] == q.completions[id])
  {
    StartedKeepsBooks(Ready(p, c, r), c, r.look, r.queue);
  }

  // ---- fairness -----------------------------------------------------------------------------

  /** X could have been started since `since`, and the tick leaves it waiting. */
  predicate Waits(p: Pool, c: Config, r: Round, x: AccountId, since: Time) {
    && Eligible(Ready(p, c, r), r.look, x) && TurnOf(Ready(p, c, r), r.look, x).due <= since
    && x !in After(p, c, r).active
  }

  /** Y is running, or will not be startable until after `since`. */
  predicate HadTurn(p: Pool, y: AccountId, since: Time) {
    y in p.active || y !in p.due || p.due[y] > since
  }

  lemma ReadyKeepsTurn(p: Pool, c: Config, r: Round, y: AccountId, since: Time)
    requires c.interval > 0 && r.look.now > since && HadTurn(p, y, since)
    ensures var q := Ready(p, c, r); y in q.active || y !in q.due || q.due[y] > since
  {
    ReapedDue(p, c, r.look, r.order, y);
  }

  /** An eligible account with an earlier turn stands earlier in the queue. */
  lemma PlaceBefore(q: Pool, l: Look, ts: seq<Turn>, x: AccountId, j: nat) returns (i: nat)
    requires Queue(q, l, ts) && j < |ts| && Eligible(q, l, x) && TurnOf(q, l, x).due < ts[j].due
    ensures i < j && ts[i].id == x
  {
    i :| 0 <= i < |ts| && ts[i] == TurnOf(q, l, x);
    assert forall k :: j < k < |ts| ==> Earlier(ts[j], ts[k]);
  }

  /** While X waits, an account that had its turn is not started again. */
  lemma NotTwice(p: Pool, c: Config, r: Round, x: AccountId, y: AccountId, since: Time)
    requires c.interval > 0 && ValidRound(p, c, r) && r.look.now > since
    requires Waits(p, c, r, x, since) && HadTurn(p, y, since)
    ensures !StartedIn(p, c, r, y) && HadTurn(After(p, c, r), y, since)
  {
    var q, l, ts := Ready(p, c, r), r.look, r.queue;
    ReadyKeepsTurn(p, c, r, y, since);
    QueueAwaits(q, l, ts);
    StartedMeans(q, c, l, ts, y);
    if StartedIn(p, c, r, y) {
      var j :| 0 <= j < |ts| && ts[j].id == y;
      assert ts[j] in ts && ts[j].due > since;
      var i := PlaceBefore(q, l, ts, x, j);
      NoOvertaking(q, c, l, ts, i, j);
    }
  }

  function Final(p: Pool, c: Config, rounds: seq<Round>): Pool
    decreases |rounds|
  {
    if rounds == [] then p else Final(After(p, c, rounds[0]), c, rounds[1..])
  }

  /** A run is its ticks, one after the other. */
  lemma {:induction false} OneTickMore(p: Pool, c: Config, rounds: seq<Round>, r: Round)
    ensures Final(p, c, rounds + [r]) == After(Final(p, c, rounds), c, r)
    decreases |rounds|
  {
    if rounds == [] {
      assert [] + [r] == [r] && [r][1..] == [];
    } else {
      assert (rounds + [r])[1..] == rounds[1..] + [r];
      OneTickMore(After(p, c, rounds[0]), c, rounds[1..], r);
    }
  }

  /** A run of valid ticks, at strictly increasing times from `from` on, all of which leave X waiting. */
  ghost predicate WaitingRun(p: Pool, c: Config, rounds: seq<Round>, x: AccountId, since: Time, from: Time)
    decreases |rounds|
  {
    rounds != [] ==>
      && ValidRound(p, c, rounds[0]) && rounds[0].look.now >= from && Waits(p, c, rounds[0], x, since)
      && WaitingRun(After(p, c, rounds[0]), c, rounds[1..], x, since, rounds[0].look.now + 1)
  }

  function Starts(p: Pool, c: Config, rounds: seq<Round>, y: AccountId): nat
    decreases |rounds|
  {
    if rounds == [] then 0
    else (if StartedIn(p, c, rounds[0], y) then 1 else 0) + Starts(After(p, c, rounds[0]), c, rounds[1..], y)
  }

  lemma {:induction false} NeverAgain(p: Pool, c: Config, rounds: seq<Round>, x: AccountId, y: AccountId, since: Time, from: Time)
    requires c.interval > 0 && from > since && WaitingRun(p, c, rounds, x, since, from) && HadTurn(p, y, since)
    ensures Starts(p, c, rounds, y) == 0
    decreases |rounds|
  {
    if rounds != [] {
      NotTwice(p, c, rounds[0], x, y, since);
      NeverAgain(After(p, c, rounds[0]), c, rounds[1..], x, y, since, rounds[0].look.now + 1);
    }
  }

  /**
   Fairness: while an account that has been startable since `since` waits, every other account is started
   at most once, however long the run and whatever the others' backoffs.
   */
  lemma {:induction false} AtMostOneTurnEach(p: Pool, c: Config, rounds: seq<Round>, x: AccountId, y: AccountId, since: Time, from: Time)
    requires c.interval > 0 && from >= since && WaitingRun(p, c, rounds, x, since, from)
    ensures Starts(p, c, rounds, y) <= 1
    decreases |rounds|
  {
    if rounds != [] {
      var p' := After(p, c, rounds[0]);
      if StartedIn(p, c, rounds[0], y) {
        NeverAgain(p', c, rounds[1..], x, y, since, rounds[0].look.now + 1);
      } else {
        AtMostOneTurnEach(p', c, rounds[1..], x, y, since, rounds[0].look.now + 1);
      }
    }
  }

  // ---- every run ----------------------------------------------------------------------------

  ghost predicate ValidRun(p: Pool, c: Config, rounds: seq<Round>)
    decreases |rounds|
  {
    rounds != [] ==> ValidRound(p, c, rounds[0]) && ValidRun(After(p, c, rounds[0]), c, rounds[1..])
  }

  /** From an empty pool, after any ticks: spawned = reaped + active, and active never exceeds the concurrency. */
  lemma {:induction false} BooksBalance(p: Pool, c: Config, rounds: seq<Round>)
    requires Sound(p, c) && ValidRun(p, c, rounds)
    ensures Sound(Final(p, c, rounds), c)
    decreases |rounds|
  {
    if rounds != [] {
      TickKeepsBooks(p, c, rounds[0]);
      BooksBalance(After(p, c, rounds[0]), c, rounds[1..]);
    }
  }
}
