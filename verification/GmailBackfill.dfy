/**
 The resumable Gmail full sync of src/email/email_processor.py: a generation number marks what this full
 sync has already recorded, so a run cut short anywhere is taken up again without fetching it twice. The server may list
 a page differently every time it is asked, but names no message twice on one page.
 */
module GmailBackfill {
  import opened Common

  type MsgId = nat

  /** A row of `email_logs`, as far as a full sync cares. */
  datatype Log = Log(seen: Option<nat>, deleted: bool)

  datatype Policy = HardDelete | Tombstone | Retain

  /** What one get_parsed_message comes to. */
  datatype Fetch = Arrived | Missing | Failed

  /** One answer of the listing: the token it was asked for, its messages, and the token of the next page, if any. */
  datatype Page = Page(token: Option<string>, ids: seq<MsgId>, next: string)

  /**
   What befalls one run: the answers to its requests, a listing by visit and page token, and how many
   commits it makes before it is cut off, if it is.
   */
  datatype Luck = Luck(fetch: (nat, nat) -> Fetch, listing: (nat, Option<string>) -> Option<Page>, history: string, commits: Commits)

  ghost predicate Sane(l: Luck) {
    forall v, t :: l.listing(v, t).Some? ==> Distinct(l.listing(v, t).value.ids) && l.listing(v, t).value.token == t
  }

  /** A run nothing goes wrong with. */
  ghost predicate Smooth(l: Luck) {
    l.commits.None? && l.history != "" && forall v, i :: l.fetch(v, i) != Failed
  }

  /** These pages are the answers to the visits of a run, one by one. */
  ghost predicate AsListed(l: Luck, pages: seq<Page>) {
    forall v :: 0 <= v < |pages| ==> l.listing(v, pages[v].token) == Some(pages[v])
  }

  lemma ListedOneMore(l: Luck, before: seq<Page>, pages: seq<Page>, page: Page) returns (more: seq<Page>)
    requires AsListed(l, pages) && l.listing(|pages|, page.token) == Some(page)
    ensures |more| == |pages| + 1 && before + more == (before + pages) + [page] && AsListed(l, more)
  {
    more := pages + [page];
  }

  /** The listing, asked from this token on, comes to an end within so many visits. */
  predicate Ends(l: Luck, visit: nat, token: Option<string>, visits: nat)
    decreases visits
  {
    && visits > 0 && l.listing(visit, token).Some?
    && (l.listing(visit, token).value.next == "" || Ends(l, visit + 1, Some(l.listing(visit, token).value.next), visits - 1))
  }

  datatype Ending = Finished | Raised | CutOff

  /** A request for a message, and whether this generation had recorded it when it was made. */
  datatype Ask = Ask(id: MsgId, recorded: bool)

  /** The listed messages not recorded yet, in listed order. */
  function NotYetSeen(ids: seq<MsgId>, logs: map<MsgId, Log>, generation: nat): seq<MsgId> {
    if ids == [] then []
    else (if Marked(logs, ids[0], generation) then [] else [ids[0]])
         + NotYetSeen(ids[1..], logs, generation)
  }

  lemma {:induction false} NotYetSeenExactly(ids: seq<MsgId>, logs: map<MsgId, Log>, generation: nat)
    requires Distinct(ids)
    ensures var rest := NotYetSeen(ids, logs, generation);
            && Distinct(rest)
            && forall id :: id in rest <==> id in ids && !Marked(logs, id, generation)
  {
    if ids != [] {
      NotYetSeenExactly(ids[1..], logs, generation);
    }
  }

  predicate Marked(logs: map<MsgId, Log>, id: MsgId, generation: nat) {
    id in logs && logs[id].seen == Some(generation)
  }

  /** The table after some of these messages were recorded under this generation, and nothing else changed. */
  ghost predicate Gains(logs: map<MsgId, Log>, logs': map<MsgId, Log>, ids: seq<MsgId>, generation: nat) {
    && (forall id :: id in logs ==> id in logs' && (logs'[id] == logs[id] || (id in ids && Marked(logs', id, generation))))
    && (forall id :: id in logs' && id !in logs ==> id in ids && Marked(logs', id, generation))
  }

  /** Every message listed is recorded, or the server no longer had it. */
  ghost predicate AllSeen(ids: seq<MsgId>, logs: map<MsgId, Log>, generation: nat, vanished: set<MsgId>) {
    forall id :: id in ids ==> Marked(logs, id, generation) || id in vanished
  }

  class FullSync {
    const policy: Policy
    const concurrency: nat
    const pagesPerCycle: nat
    var complete: bool             // initial_sync_complete
    var history: Option<string>    // provider_sync_token: the snapshot this sync started from
    var generation: nat
    var token: Option<string>      // sync_page_token
    var logs: map<MsgId, Log>
    ghost var finished: seq<Page>  // the pages this sync has finished, as they were listed
    ghost var vanished: set<MsgId> // missing on one of them
    ghost var absent: set<MsgId>   // ever answered "missing" by the server
    ghost var asked: seq<Ask>

    predicate Recorded(id: MsgId)
      reads `logs, `generation
    {
      Marked(logs, id, generation)
    }

    function RecordedIds(): set<MsgId>
      reads `logs, `generation
    {
      set id | id in logs && Recorded(id)
    }

    /** What this sync has behind it: pages finished and messages recorded. */
    ghost function Done(): nat
      reads `logs, `generation, `finished
    {
      |finished| + |RecordedIds()|
    }

    /** A full sync has its snapshot and has not completed. */
    predicate InProgress()
      reads `complete, `history
    {
      !complete && history.Some?
    }

    /** The token a sync goes on with after these pages. */
    static function NextToken(pages: seq<Page>): Option<string> {
      if pages == [] then None else Some(pages[|pages| - 1].next)
    }

    /** Each page was asked for with the token the one before it gave. */
    static ghost predicate Chained(pages: seq<Page>) {
      && (pages != [] ==> pages[0].token == None)
      && forall p, q :: 0 <= p < |pages| - 1 && q == p + 1 ==> pages[q].token == Some(pages[p].next) && pages[p].next != ""
    }

    /** Every message on the finished pages is recorded, or the server no longer had it. */
    ghost predicate PagesSeen()
      reads `logs, `generation, `finished, `vanished
    {
      forall p :: 0 <= p < |finished| ==> AllSeen(finished[p].ids, logs, generation, vanished)
    }

    ghost predicate Valid()
      reads `complete, `history, `generation, `token, `logs, `finished, `vanished, `absent
    {
      && vanished <= absent
      && (history.None? ==> token.None?)
      && (forall id :: id in logs && logs[id].seen.Some? ==> logs[id].seen.value <= generation)
      && (InProgress() ==> forall id :: Recorded(id) ==> !logs[id].deleted)
      && (InProgress() ==> PagesSeen() && Chained(finished) && token == NextToken(finished) && token != Some(""))
    }

    /** Only messages not recorded yet were asked for. */
    twostate predicate OnlyAsksForNew()
      reads `asked
    {
      old(asked) <= asked && forall i :: |old(asked)| <= i < |asked| ==> !asked[i].recorded
    }

    /** `_process_emails` for one message: the upsert stamps the generation and undeletes. */
    method Record(id: MsgId)
      requires Valid() && InProgress() && !Recorded(id)
      modifies `logs
      ensures Valid() && logs == old(logs)[id := Log(Some(generation), false)]
      ensures Done() == old(Done()) + 1
    {
      ghost var before := RecordedIds();
      Stamp(id);
      assert RecordedIds() == before + {id};
    }

    method Stamp(id: MsgId)
      requires Valid() && InProgress()
      modifies `logs
      ensures Valid() && logs == old(logs)[id := Log(Some(generation), false)]
    {
      logs := logs[id := Log(Some(generation), false)];
      forall p | 0 <= p < |finished| ensures AllSeen(finished[p].ids, logs, generation, vanished) {
        assert AllSeen(finished[p].ids, old(logs), generation, vanished);
      }
    }

    /** The fetches of one chunk all settle; what arrived is kept for the commits that follow. */
    method FetchChunk(ids: seq<MsgId>, luck: Luck, visit: nat, requests: nat)
      returns (arrived: seq<MsgId>, missing: set<MsgId>, failed: bool)
      requires Distinct(ids) && forall id :: id in ids ==> !Recorded(id)
      modifies `asked, `absent
      ensures OnlyAsksForNew() && old(absent) <= absent && missing <= absent
      ensures Distinct(arrived) && (forall id :: id in arrived ==> id in ids) && (forall id :: id in missing ==> id in ids)
      ensures !failed ==> forall id :: id in ids ==> id in arrived || id in missing
      ensures Smooth(luck) ==> !failed
    {
      arrived, missing, failed := [], {}, false;
      for i := 0 to |ids|
        invariant OnlyAsksForNew() && old(absent) <= absent && missing <= absent
        invariant Distinct(arrived) && (forall id :: id in arrived ==> id in ids[..i])
        invariant forall id :: id in missing ==> id in ids
        invariant !failed ==> forall id :: id in ids[..i] ==> id in arrived || id in missing
        invariant Smooth(luck) ==> !failed
      {
        asked := asked + [Ask(ids[i], Recorded(ids[i]))];
        assert ids[i] !in ids[..i];
        match luck.fetch(visit, requests + i) {
          case Arrived => arrived := arrived + [ids[i]];
          case Missing =>
            missing := missing + {ids[i]};
            absent := absent + {ids[i]};
          case Failed => failed := true;
        }
      }
    }

    /** Commit what arrived, one message a transaction, until the run is cut off. */
    method CommitChunk(arrived: seq<MsgId>, commits: Commits) returns (left: Commits, done: bool)
      requires Valid() && InProgress() && Distinct(arrived)
      requires forall id :: id in arrived ==> !Recorded(id)
      modifies `logs
      ensures Valid() && Gains(old(logs), logs, arrived, generation)
      ensures old(Done()) <= Done() && (done ==> Done() == old(Done()) + |arrived|)
      ensures done ==> forall id :: id in arrived ==> Recorded(id)
      ensures commits.None? ==> done && left.None?
    {
      left, done := commits, true;
      for i := 0 to |arrived|
        invariant Valid() && Gains(old(logs), logs, arrived, generation) && done
        invariant Done() == old(Done()) + i && (commits.None? ==> left.None?)
        invariant forall k :: 0 <= k < |arrived| ==> (Recorded(arrived[k]) <==> k < i)
      {
        if left == Some(0) {
          return left, false;
        }
        GainsOne(old(logs), logs, arrived, arrived[i], generation);
        Record(arrived[i]);
        left := Spend(left);
      }
    }

    /** One chunk: what arrived is committed before a failure is raised. */
    method OneChunk(chunk: seq<MsgId>, luck: Luck, visit: nat, requests: nat, commits: Commits)
      returns (count: nat, missing: set<MsgId>, left: Commits, ending: Ending)
      requires Valid() && InProgress() && Distinct(chunk)
      requires forall id :: id in chunk ==> !Recorded(id)
      modifies `logs, `asked, `absent
      ensures Valid() && OnlyAsksForNew() && Gains(old(logs), logs, chunk, generation) && old(absent) <= absent
      ensures old(Done()) + count <= Done() && (ending != CutOff ==> old(Done()) + count == Done()) && missing <= absent
      ensures ending == Finished ==> forall id :: id in chunk ==> Recorded(id) || id in missing
      ensures Smooth(luck) && commits.None? ==> ending == Finished && left.None?
    {
      var arrived, failed;
      arrived, missing, failed := FetchChunk(chunk, luck, visit, requests);
      var done;
      left, done := CommitChunk(arrived, commits);
      count := if done then |arrived| else 0;
      ending := if !done then CutOff else if failed then Raised else Finished;
    }

    /** `_fetch_and_process_gmail_messages`, chunk by chunk; `count` is what was reported as committed. */
    method FetchAndProcess(ids: seq<MsgId>, luck: Luck, visit: nat, commits: Commits)
      returns (count: nat, missing: set<MsgId>, left: Commits, ending: Ending)
      requires Valid() && InProgress() && Distinct(ids)
      requires forall id :: id in ids ==> !Recorded(id)
      modifies `logs, `asked, `absent
      ensures Valid() && OnlyAsksForNew() && Gains(old(logs), logs, ids, generation)
      ensures old(Done()) + count <= Done() && (ending != CutOff ==> old(Done()) + count == Done()) && missing <= absent
      ensures ending == Finished ==> forall id :: id in ids ==> Recorded(id) || id in missing
      ensures Smooth(luck) && commits.None? ==> ending == Finished && left.None?
    {
      count, missing, left, ending := 0, {}, commits, Finished;
      var width := if concurrency > 1 then concurrency else 1;
      var offset := 0;
      while offset < |ids| && ending == Finished
        invariant offset <= |ids|
        invariant Valid() && OnlyAsksForNew() && Gains(old(logs), logs, ids[..offset], generation)
        invariant old(Done()) + count <= Done() && (ending != CutOff ==> old(Done()) + count == Done())
        invariant missing <= absent && old(absent) <= absent
        invariant ending == Finished ==> forall id :: id in ids[..offset] ==> Recorded(id) || id in missing
        invariant Smooth(luck) && commits.None? ==> ending == Finished && left.None?
        invariant forall id :: id in ids[offset..] ==> !Recorded(id)
        decreases |ids| - offset
      {
        var end := if offset + width <= |ids| then offset + width else |ids|;
        ghost var was := logs;
        Slices(ids, offset, end);
        var more, absent;
        more, absent, left, ending := OneChunk(ids[offset..end], luck, visit, offset, left);
        count, missing := count + more, missing + absent;
        GainsChain(old(logs), was, logs, ids[..offset], ids[offset..end], ids[..end], generation);
        assert forall id :: id in ids[end..] ==> id !in ids[offset..end] && !Marked(was, id, generation);
        offset := end;
      }
      assert ids[..offset] <= ids;
    }

    /** The snapshot a new full sync starts from: its history id, and a generation nothing is recorded under. */
    method Snapshot(historyId: string)
      requires Valid() && !complete && history.None?
      modifies `generation, `history, `finished, `vanished
      ensures Valid() && InProgress() && generation == old(generation) + 1 && history == Some(historyId)
      ensures RecordedIds() == {} && finished == [] && vanished == {}
    {
      generation, history, finished, vanished := generation + 1, Some(historyId), [], {};
    }

    /** What becomes of the messages this full sync did not see. */
    function Reconciled(): map<MsgId, Log>
      reads `logs, `generation
    {
      map id | id in logs && (Recorded(id) || policy != HardDelete)
             :: if Recorded(id) || policy == Retain then logs[id] else logs[id].(deleted := true)
    }

    /** Kept, all but the unseen; kept, the unseen marked deleted; or kept. No message seen is ever lost or changed. */
    lemma ReconciledExactly(id: MsgId)
      ensures id in logs && logs[id].seen == Some(generation) ==> id in Reconciled() && Reconciled()[id] == logs[id]
      ensures id in logs && logs[id].seen != Some(generation) ==>
                match policy
                case HardDelete => id !in Reconciled()
                case Tombstone => id in Reconciled() && Reconciled()[id] == logs[id].(deleted := true)
                case Retain => id in Reconciled() && Reconciled()[id] == logs[id]
      ensures id in Reconciled() ==> id in logs
    {
    }

    /** `_complete_gmail_backfill`: reconcile upstream removals, after every page has been processed. */
    method Complete()
      requires vanished <= absent && !complete && history.Some?
      requires forall id :: id in logs && logs[id].seen.Some? ==> logs[id].seen.value <= generation
      modifies `logs, `complete, `token
      ensures Valid() && complete && token.None? && logs == old(Reconciled())
      ensures RecordedIds() == old(RecordedIds())
    {
      ghost var was := logs;
      var stale := set id | id in logs && !Recorded(id);
      if policy == HardDelete {
        logs := logs - stale;
      } else if policy == Tombstone {
        logs := map id | id in logs :: if id in stale then logs[id].(deleted := true) else logs[id];
      }
      complete, token := true, None;
      assert forall id :: Recorded(id) <==> Marked(was, id, generation);
      assert logs == old(Reconciled());
    }

    /**
     What a completed full sync leaves: it followed the listing page by page to its end; every message on
     any of these pages, as they were listed when they were finished, is recorded and live, unless the
     server had answered that it was missing; the rest of the table went the policy's way.
     */
    ghost predicate Settled()
      reads `logs, `generation, `finished, `vanished, `absent
    {
      && Chained(finished) && finished != [] && finished[|finished| - 1].next == ""
      && vanished <= absent && PagesSeen()
      && (forall id :: id in logs && Recorded(id) ==> !logs[id].deleted)
      && (forall id :: id in logs && !Recorded(id) ==> policy != HardDelete && (policy == Tombstone ==> logs[id].deleted))
    }

    /** One page more is finished. */
    static lemma OneMorePage(finished: seq<Page>, page: Page)
      requires Chained(finished) && page.token == NextToken(finished) && page.token != Some("")
      ensures Chained(finished + [page]) && NextToken(finished + [page]) == Some(page.next)
    {
      var more := finished + [page];
      forall p, q | 0 <= p < |more| - 1 && q == p + 1 ensures more[q].token == Some(more[p].next) && more[p].next != "" {
        assert q < |finished| ==> finished[q].token == Some(finished[p].next);
      }
    }

    lemma OneMoreSeen(page: Page, missing: set<MsgId>)
      requires PagesSeen() && forall id :: id in page.ids ==> Recorded(id) || id in missing
      ensures var more := finished + [page]; forall p :: 0 <= p < |more| ==> AllSeen(more[p].ids, logs, generation, vanished + missing)
    {
      var more := finished + [page];
      forall p | 0 <= p < |more| ensures AllSeen(more[p].ids, logs, generation, vanished + missing) {
        assert p < |finished| ==> AllSeen(finished[p].ids, logs, generation, vanished);
      }
    }

    /** The end of one page: its token is saved, or the sync completes. */
    method FinishPage(page: Page, ghost missing: set<MsgId>)
      requires Valid() && InProgress() && page.token == token
      requires missing <= absent && forall id :: id in page.ids ==> Recorded(id) || id in missing
      modifies `logs, `complete, `token, `finished, `vanished
      ensures Valid() && vanished == old(vanished) + missing && finished == old(finished) + [page]
      ensures RecordedIds() == old(RecordedIds())
      ensures complete <==> page.next == ""
      ensures !complete ==> token == Some(page.next) && logs == old(logs)
      ensures complete ==> logs == old(Reconciled()) && Settled()
    {
      OneMorePage(finished, page);
      OneMoreSeen(page, missing);
      finished, vanished := finished + [page], vanished + missing;
      if page.next != "" {
        token := Some(page.next);
      } else {
        CompleteLast();
      }
    }

    /** ... the latter. */
    method CompleteLast()
      requires vanished <= absent && !complete && history.Some? && PagesSeen()
      requires Chained(finished) && finished != [] && finished[|finished| - 1].next == ""
      requires forall id :: id in logs && logs[id].seen.Some? ==> logs[id].seen.value <= generation
      requires forall id :: Recorded(id) ==> !logs[id].deleted
      modifies `logs, `complete, `token
      ensures Valid() && complete && logs == old(Reconciled()) && Settled()
      ensures RecordedIds() == old(RecordedIds())
    {
      ghost var was := logs;
      Complete();
      assert forall id :: Marked(logs, id, generation) <==> Marked(was, id, generation);
      forall p | 0 <= p < |finished| ensures AllSeen(finished[p].ids, logs, generation, vanished) {
        assert AllSeen(finished[p].ids, was, generation, vanished);
      }
    }

    /** `_reset_gmail_backfill`: the history expired, or there is none. */
    method Reset()
      requires Valid()
      modifies `complete, `history, `token
      ensures Valid() && !complete && history.None? && token.None?
    {
      complete, history, token := false, None, None;
    }

    /**
     One run of `_process_gmail_backfill`, cut short wherever `luck` says. `steps` is the progress it
     reports: each step is a page finished or a message recorded, and none is reported twice by a sync.
     */
    method Run(luck: Luck) returns (steps: nat, ending: Ending, ghost pages: seq<Page>)
      requires Valid() && Sane(luck)
      modifies this
      ensures Valid() && OnlyAsksForNew()
      ensures old(InProgress()) ==> generation == old(generation) && old(vanished) <= vanished && finished == old(finished) + pages
                                    && old(Done()) + steps <= Done() && (ending != CutOff ==> old(Done()) + steps == Done())
      ensures old(!complete && history.None?) ==>
                (if history.None? then steps == 0 && !complete && logs == old(logs)
                 else generation == old(generation) + 1 && steps <= Done() && (ending != CutOff ==> steps == Done()) && finished == pages)
      ensures AsListed(luck, pages)
      ensures old(complete) ==> steps == 0 && complete && logs == old(logs) && asked == old(asked)
      ensures complete && !old(complete) ==> Settled()
      ensures Smooth(luck) && !old(complete) && Ends(luck, 0, old(token), pagesPerCycle) ==> complete
    {
      steps, ending, pages := 0, Finished, [];
      if complete { return; }
      var left := luck.commits;
      if history.None? {
        if luck.history == "" { return 0, Raised, []; }
        if left == Some(0) { return 0, CutOff, []; }
        Snapshot(luck.history);
        left := Spend(left);
      }
      steps, ending, pages := Follow(luck, left);
    }

    /** The listing from the saved token on. */
    method Follow(luck: Luck, commits: Commits) returns (steps: nat, ending: Ending, ghost pages: seq<Page>)
      requires Valid() && Sane(luck) && InProgress()
      modifies this
      ensures Valid() && OnlyAsksForNew() && generation == old(generation) && history == old(history)
      ensures old(vanished) <= vanished && old(Done()) + steps <= Done() && (ending != CutOff ==> old(Done()) + steps == Done())
      ensures complete ==> Settled()
      ensures finished == old(finished) + pages && AsListed(luck, pages)
      ensures Smooth(luck) && commits.None? && Ends(luck, 0, old(token), pagesPerCycle) ==> complete
    {
      ghost var before, from := finished, token;
      steps, ending, pages := Visits(luck, commits);
      if !complete && (|pages| == pagesPerCycle || luck.listing(|pages|, token).None?) {
        assert before + pages[..0] == before;
        Unending(luck, before, pages, 0, pagesPerCycle);
      }
    }

    /** A page among chained ones was asked for with the token the one before it gave, and gave one itself if others follow. */
    static lemma AskedInTurn(before: seq<Page>, pages: seq<Page>, k: nat)
      requires Chained(before + pages) && k < |pages|
      ensures NextToken(before + pages[..k]) == pages[k].token && NextToken(before + pages[..k + 1]) == Some(pages[k].next)
      ensures k < |pages| - 1 ==> pages[k].next != ""
    {
      var all, i := before + pages, |before| + k;
      assert all[i] == pages[k] && before + pages[..k] == all[..i] && before + pages[..k + 1] == all[..i + 1];
      if i > 0 {
        assert all[i].token == Some(all[i - 1].next) by {
          var p, q := i - 1, i;
          assert 0 <= p < |all| - 1 && q == p + 1;
        }
      }
      if k < |pages| - 1 {
        var q := i + 1;
        assert all[q].token == Some(all[i].next);
      }
    }

    /** Pages that lead on to others, as many as there are visits or up to a failing request: the listing did not end. */
    static lemma {:induction false} Unending(l: Luck, before: seq<Page>, pages: seq<Page>, k: nat, visits: nat)
      requires Chained(before + pages) && AsListed(l, pages) && k <= |pages| <= visits
      requires pages != [] ==> pages[|pages| - 1].next != ""
      requires |pages| == visits || l.listing(|pages|, NextToken(before + pages)).None?
      ensures !Ends(l, k, NextToken(before + pages[..k]), visits - k)
      decreases |pages| - k
    {
      if k < |pages| {
        Unending(l, before, pages, k + 1, visits);
        AskedInTurn(before, pages, k);
      } else {
        assert pages[..k] == pages;
      }
    }

    /** The loop over the pages of one run. */
    method Visits(luck: Luck, commits: Commits) returns (steps: nat, ending: Ending, ghost pages: seq<Page>)
      requires Valid() && Sane(luck) && InProgress()
      modifies this
      ensures Valid() && OnlyAsksForNew() && generation == old(generation) && history == old(history)
      ensures old(vanished) <= vanished && old(Done()) + steps <= Done() && (ending != CutOff ==> old(Done()) + steps == Done())
      ensures complete ==> Settled()
      ensures finished == old(finished) + pages && AsListed(luck, pages) && |pages| <= pagesPerCycle
      ensures Smooth(luck) && commits.None? && !complete ==> |pages| == pagesPerCycle || luck.listing(|pages|, token).None?
    {
      steps, ending, pages := 0, Finished, [];
      var left := commits;
      for visit := 0 to pagesPerCycle
        invariant Valid() && InProgress() && OnlyAsksForNew() && generation == old(generation) && history == old(history)
        invariant old(vanished) <= vanished && old(Done()) + steps == Done() && ending == Finished
        invariant |pages| == visit && finished == old(finished) + pages && AsListed(luck, pages)
        invariant Smooth(luck) && commits.None? ==> left.None?
      {
        var page := luck.listing(visit, token);
        if page.None? { return steps, Raised, pages; }
        var count;
        count, left, ending := VisitPage(page.value, luck, visit, left);
        steps := steps + count;
        if ending != Finished { return; }
        pages := ListedOneMore(luck, old(finished), pages, page.value);
        if complete { return; }
      }
    }

    /** What is new on a page is fetched; then all of it is recorded or missing. */
    method FetchNew(listed: seq<MsgId>, luck: Luck, visit: nat, commits: Commits)
      returns (count: nat, missing: set<MsgId>, left: Commits, ending: Ending)
      requires Valid() && InProgress() && Distinct(listed)
      modifies `logs, `asked, `absent
      ensures Valid() && OnlyAsksForNew() && missing <= absent
      ensures old(Done()) + count <= Done() && (ending != CutOff ==> old(Done()) + count == Done())
      ensures ending == Finished ==> forall id :: id in listed ==> Recorded(id) || id in missing
      ensures Smooth(luck) && commits.None? ==> ending == Finished && left.None?
    {
      var ids := NotYetSeen(listed, logs, generation);
      NotYetSeenExactly(listed, logs, generation);
      ghost var was := logs;
      count, missing, left, ending := FetchAndProcess(ids, luck, visit, commits);
      assert forall id :: Marked(was, id, generation) ==> Recorded(id);
    }

    /** One page of the listing: fetch what is new, then save the page token or complete. */
    method VisitPage(page: Page, luck: Luck, visit: nat, commits: Commits) returns (count: nat, left: Commits, ending: Ending)
      requires Valid() && InProgress() && page.token == token && Distinct(page.ids)
      modifies this
      ensures Valid() && OnlyAsksForNew() && generation == old(generation) && history == old(history)
      ensures old(vanished) <= vanished && old(Done()) + count <= Done() && (ending != CutOff ==> old(Done()) + count == Done())
      ensures finished == old(finished) + (if ending == Finished then [page] else [])
      ensures complete ==> Settled()
      ensures ending == Finished ==> (complete <==> page.next == "") && (!complete ==> token == Some(page.next))
      ensures ending != Finished ==> !complete && token == old(token)
      ensures Smooth(luck) && commits.None? ==> ending == Finished && left.None?
    {
      var missing;
      count, missing, left, ending := FetchNew(page.ids, luck, visit, commits);
      if ending != Finished { return; }
      if left == Some(0) {
        ending := CutOff;
        return;
      }
      FinishPage(page, missing);
      left, count := Spend(left), count + 1;
    }
  }

  /** Three consecutive slices of a list without repeats share nothing. */
  lemma Slices(ids: seq<MsgId>, a: nat, b: nat)
    requires a <= b <= |ids| && Distinct(ids)
    ensures Distinct(ids[a..b])
    ensures forall id :: id in ids[a..b] ==> id in ids[a..]
    ensures forall id :: id in ids[b..] ==> id in ids[a..] && id !in ids[a..b]
    ensures forall id :: id in ids[..b] <==> id in ids[..a] || id in ids[a..b]
  {
    assert ids[..b] == ids[..a] + ids[a..b];
    assert ids[a..] == ids[a..b] + ids[b..];
    forall id | id in ids[b..] ensures id !in ids[a..b] {
      var j :| 0 <= j < |ids[b..]| && ids[b..][j] == id;
      assert ids[b + j] == id;
    }
  }

  lemma GainsOne(a: map<MsgId, Log>, b: map<MsgId, Log>, ids: seq<MsgId>, id: MsgId, generation: nat)
    requires Gains(a, b, ids, generation) && id in ids
    ensures Gains(a, b[id := Log(Some(generation), false)], ids, generation)
  {
  }

  lemma GainsChain(a: map<MsgId, Log>, b: map<MsgId, Log>, c: map<MsgId, Log>, first: seq<MsgId>, next: seq<MsgId>,
                   both: seq<MsgId>, generation: nat)
    requires Gains(a, b, first, generation) && Gains(b, c, next, generation)
    requires forall id :: id in both <==> id in first || id in next
    ensures Gains(a, c, both, generation)
  {
  }
}
