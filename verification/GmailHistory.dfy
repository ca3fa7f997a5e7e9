/**
 The Gmail history checkpoint of src/email/email_processor.py: pages of changes since the checkpoint are
 applied one by one, and a run may be cut off between any two commits. A page that is asked for again may
 say something else than before, and so may the requests for its messages.
 */
module GmailHistory {
  import opened Common

  type MsgId = nat

  datatype Policy = HardDelete | Tombstone | Retain

  datatype Mail = Live | Tombstoned

  type Mailbox = map<MsgId, Mail>

  /** One history record: the messages it names, by kind of event. */
  datatype Record = Record(messages: seq<MsgId>, added: seq<MsgId>, labelsAdded: seq<MsgId>, labelsRemoved: seq<MsgId>, deleted: seq<MsgId>)

  type Page = seq<Record>

  function Ids(s: seq<MsgId>): set<MsgId> {
    set id | id in s
  }

  function FirstIds(s: seq<MsgId>, n: nat): set<MsgId>
    requires n <= |s|
  {
    if n == 0 then {} else FirstIds(s, n - 1) + {s[n - 1]}
  }

  lemma {:induction false} FirstIdsMeans(s: seq<MsgId>, n: nat, id: MsgId)
    requires n <= |s|
    ensures id in FirstIds(s, n) <==> exists k :: 0 <= k < n && s[k] == id
  {
    if n > 0 { FirstIdsMeans(s, n - 1, id); }
  }

  lemma FirstIdsAre(s: seq<MsgId>)
    ensures FirstIds(s, |s|) == Ids(s)
  {
    forall id: MsgId ensures id in FirstIds(s, |s|) <==> id in Ids(s) { FirstIdsMeans(s, |s|, id); }
  }

  function Touched(r: Record): set<MsgId> {
    Ids(r.messages) + Ids(r.added) + Ids(r.labelsAdded) + Ids(r.labelsRemoved)
  }

  function ChangedIds(p: Page): set<MsgId> {
    if p == [] then {} else ChangedIds(p[..|p| - 1]) + Touched(p[|p| - 1])
  }

  function DeletedIds(p: Page): set<MsgId> {
    if p == [] then {} else DeletedIds(p[..|p| - 1]) + Ids(p[|p| - 1].deleted)
  }

  /** A message is changed, or deleted, if and only if some record of the page says so. */
  lemma {:induction false} NamedExactly(p: Page, id: MsgId)
    ensures id in ChangedIds(p) <==> exists r :: r in p && (id in r.messages || id in r.added || id in r.labelsAdded || id in r.labelsRemoved)
    ensures id in DeletedIds(p) <==> exists r :: r in p && id in r.deleted
  {
    if p != [] {
      NamedExactly(p[..|p| - 1], id);
      assert forall r :: r in p <==> r in p[..|p| - 1] || r == p[|p| - 1];
    }
  }

  /** What the page fetches: changed and not deleted. */
  function Wanted(p: Page): set<MsgId> { ChangedIds(p) - DeletedIds(p) }

  function Named(p: Page): set<MsgId> { ChangedIds(p) + DeletedIds(p) }

  /** The messages an upsert makes live. */
  function Upserted(box: Mailbox, ids: set<MsgId>): Mailbox {
    map id | id in box.Keys + ids :: if id in ids then Live else box[id]
  }

  /** `_apply_gmail_deletions`, per policy; ids the mailbox does not know are ignored. */
  function Removed(box: Mailbox, ids: set<MsgId>, policy: Policy): Mailbox {
    match policy
    case HardDelete => box - ids
    case Tombstone => map id | id in box :: if id in ids then Tombstoned else box[id]
    case Retain => box
  }

  /** The whole of one page, uninterrupted: what the server has is upserted, the rest is removed. */
  function Applied(box: Mailbox, p: Page, missing: set<MsgId>, policy: Policy): Mailbox {
    Removed(Upserted(box, Wanted(p) - missing), DeletedIds(p) + missing, policy)
  }

  /** One page as it was listed and fetched when it was finished. */
  datatype Answer = Answer(page: Page, next: string, historyId: string)

  datatype Finish = Finish(token: Option<string>, answer: Answer, missing: set<MsgId>)

  function AppliedAll(box: Mailbox, pages: seq<Finish>, policy: Policy): Mailbox {
    if pages == [] then box
    else Applied(AppliedAll(box, pages[..|pages| - 1], policy), pages[|pages| - 1].answer.page, pages[|pages| - 1].missing, policy)
  }

  // ---- re-applying a page -------------------------------------------------------------------

  /** Part of a page followed by all of it is all of it. */
  lemma PartThenWhole(box: Mailbox, p: Page, missing: set<MsgId>, policy: Policy, part: set<MsgId>)
    requires part <= Wanted(p) - missing
    ensures Applied(Upserted(box, part), p, missing, policy) == Applied(box, p, missing, policy)
  {
    assert Upserted(Upserted(box, part), Wanted(p) - missing) == Upserted(box, Wanted(p) - missing);
  }

  /** A page applied again changes nothing. */
  lemma AgainIsNothing(box: Mailbox, p: Page, missing: set<MsgId>, policy: Policy)
    requires missing <= Wanted(p)
    ensures Applied(Applied(box, p, missing, policy), p, missing, policy) == Applied(box, p, missing, policy)
  {
    var once := Applied(box, p, missing, policy);
    assert Upserted(once, Wanted(p) - missing) == once;
    assert Removed(once, DeletedIds(p) + missing, policy) == once;
  }

  /** What a page says of a message is what the mailbox says afterwards. */
  lemma AppliedMeans(box: Mailbox, p: Page, missing: set<MsgId>, policy: Policy, id: MsgId)
    requires missing <= Wanted(p)
    ensures var box' := Applied(box, p, missing, policy);
            && (id in Wanted(p) && id !in missing ==> id in box' && box'[id] == Live)
            && (id in DeletedIds(p) || id in missing ==>
                  match policy
                  case HardDelete => id !in box'
                  case Tombstone => (id in box' <==> id in box) && (id in box' ==> box'[id] == Tombstoned)
                  case Retain => (id in box' <==> id in box) && (id in box ==> box'[id] == box[id]))
            && (id !in Named(p) ==> (id in box' <==> id in box) && (id in box ==> box'[id] == box[id]))
  {
    assert id in Wanted(p) ==> id !in DeletedIds(p);
  }

  /** Two mailboxes say the same of a message. */
  predicate Agree(box: Mailbox, box': Mailbox, id: MsgId) {
    (id in box <==> id in box') && (id in box ==> box[id] == box'[id])
  }

  /** The page makes two mailboxes agree on a message, or leaves them in agreement. */
  predicate Evens(box: Mailbox, box': Mailbox, p: Page, missing: set<MsgId>, policy: Policy, id: MsgId) {
    if id in Wanted(p) - missing then true
    else if id in DeletedIds(p) + missing && policy == HardDelete then true
    else if id in DeletedIds(p) + missing && policy == Tombstone then id in box <==> id in box'
    else Agree(box, box', id)
  }

  /** One page comes to the same on two mailboxes if and only if they agree wherever it does not even them out. */
  lemma AppliedAlikeExactly(box: Mailbox, box': Mailbox, p: Page, missing: set<MsgId>, policy: Policy)
    requires missing <= Wanted(p)
    ensures Applied(box, p, missing, policy) == Applied(box', p, missing, policy)
            <==> forall id: MsgId :: Evens(box, box', p, missing, policy, id)
  {
    var one, two := Applied(box, p, missing, policy), Applied(box', p, missing, policy);
    forall id: MsgId ensures Agree(one, two, id) <==> Evens(box, box', p, missing, policy, id) {
      AgreeExactly(box, box', p, missing, policy, id);
    }
    if forall id: MsgId :: Evens(box, box', p, missing, policy, id) {
      AgreeingAreEqual(one, two);
    }
    if one == two {
      forall id: MsgId ensures Evens(box, box', p, missing, policy, id) { assert Agree(one, two, id); }
    }
  }

  lemma AgreeingAreEqual(box: Mailbox, box': Mailbox)
    requires forall id: MsgId :: Agree(box, box', id)
    ensures box == box'
  {
    forall id: MsgId ensures id in box.Keys <==> id in box'.Keys { assert Agree(box, box', id); }
    forall id: MsgId | id in box ensures box[id] == box'[id] { assert Agree(box, box', id); }
  }

  lemma AgreeExactly(box: Mailbox, box': Mailbox, p: Page, missing: set<MsgId>, policy: Policy, id: MsgId)
    requires missing <= Wanted(p)
    ensures Agree(Applied(box, p, missing, policy), Applied(box', p, missing, policy), id) <==> Evens(box, box', p, missing, policy, id)
  {
    AppliedMeans(box, p, missing, policy, id);
    AppliedMeans(box', p, missing, policy, id);
  }

  // ---- several pages ------------------------------------------------------------------------

  /** The pages name as missing only what they fetch. */
  ghost predicate Sound(pages: seq<Finish>) {
    forall k :: 0 <= k < |pages| ==> pages[k].missing <= Wanted(pages[k].answer.page)
  }

  lemma AppliedOneMore(box: Mailbox, pages: seq<Finish>, page: Finish, policy: Policy)
    ensures AppliedAll(box, pages + [page], policy) == Applied(AppliedAll(box, pages, policy), page.answer.page, page.missing, policy)
  {
    assert (pages + [page])[..|pages|] == pages;
  }

  lemma {:induction false} AppliedTogether(box: Mailbox, pages: seq<Finish>, more: seq<Finish>, policy: Policy)
    ensures AppliedAll(box, pages + more, policy) == AppliedAll(AppliedAll(box, pages, policy), more, policy)
  {
    if more == [] {
      assert pages + more == pages;
    } else {
      var init, last := more[..|more| - 1], more[|more| - 1];
      assert more == init + [last] && pages + more == (pages + init) + [last];
      AppliedTogether(box, pages, init, policy);
      AppliedOneMore(box, pages + init, last, policy);
      AppliedOneMore(AppliedAll(box, pages, policy), init, last, policy);
    }
  }

  /** The two mailboxes agree on the message to begin with, or some page evens it out. */
  ghost predicate Evened(box: Mailbox, box': Mailbox, pages: seq<Finish>, policy: Policy, id: MsgId) {
    Agree(box, box', id)
    || exists k :: 0 <= k < |pages| && Evens(box, box', pages[k].answer.page, pages[k].missing, policy, id)
  }

  lemma EvenedOneMore(box: Mailbox, box': Mailbox, pages: seq<Finish>, policy: Policy, id: MsgId)
    requires pages != []
    ensures var init, last := pages[..|pages| - 1], pages[|pages| - 1];
            Evened(box, box', pages, policy, id)
            <==> Evened(box, box', init, policy, id) || Evens(box, box', last.answer.page, last.missing, policy, id)
  {
    var init := pages[..|pages| - 1];
    assert forall k :: 0 <= k < |init| ==> init[k] == pages[k];
  }

  /** Until a page evens it out, no page changes whether a mailbox has the message. */
  lemma {:induction false} EvenedMeans(box: Mailbox, box': Mailbox, pages: seq<Finish>, policy: Policy, id: MsgId)
    requires Sound(pages)
    ensures Agree(AppliedAll(box, pages, policy), AppliedAll(box', pages, policy), id) <==> Evened(box, box', pages, policy, id)
    ensures !Evened(box, box', pages, policy, id) ==>
              && (id in AppliedAll(box, pages, policy) <==> id in box)
              && (id in AppliedAll(box', pages, policy) <==> id in box')
  {
    if pages != [] {
      var init, last := pages[..|pages| - 1], pages[|pages| - 1];
      EvenedMeans(box, box', init, policy, id);
      EvenedOneMore(box, box', pages, policy, id);
      var one, two := AppliedAll(box, init, policy), AppliedAll(box', init, policy);
      AgreeExactly(one, two, last.answer.page, last.missing, policy, id);
      AppliedMeans(one, last.answer.page, last.missing, policy, id);
      AppliedMeans(two, last.answer.page, last.missing, policy, id);
    }
  }

  /** Several pages come to the same on two mailboxes if and only if they agree on every message no page evens out. */
  lemma AppliedAllAlikeExactly(box: Mailbox, box': Mailbox, pages: seq<Finish>, policy: Policy)
    requires Sound(pages)
    ensures AppliedAll(box, pages, policy) == AppliedAll(box', pages, policy)
            <==> forall id: MsgId :: Evened(box, box', pages, policy, id)
  {
    var one, two := AppliedAll(box, pages, policy), AppliedAll(box', pages, policy);
    forall id: MsgId ensures Agree(one, two, id) <==> Evened(box, box', pages, policy, id) {
      EvenedMeans(box, box', pages, policy, id);
    }
    if forall id: MsgId :: Evened(box, box', pages, policy, id) {
      AgreeingAreEqual(one, two);
    }
    if one == two {
      forall id: MsgId ensures Evened(box, box', pages, policy, id) { assert Agree(one, two, id); }
    }
  }

  // ---- interrupted attempts -----------------------------------------------------------------

  /** What interrupted attempts of the page at hand may have done to the messages they touched. */
  predicate DisturbedAt(settled: Mailbox, box: Mailbox, touched: set<MsgId>, policy: Policy, id: MsgId) {
    if id !in touched then Agree(box, settled, id)
    else match policy
         case HardDelete => true
         case Tombstone => id in settled ==> id in box
         case Retain => id in box && box[id] == Live
  }

  ghost predicate Disturbed(settled: Mailbox, box: Mailbox, touched: set<MsgId>, policy: Policy) {
    forall id: MsgId :: DisturbedAt(settled, box, touched, policy, id)
  }

  /**
   How a mailbox may differ from the ideal one: not at all, but for messages an interrupted attempt had
   touched and the finished page no longer named (`strays`), or had brought in before the finished page
   said they were gone (`flips`).
   */
  predicate NearAt(box: Mailbox, ideal: Mailbox, flips: set<MsgId>, strays: set<MsgId>, policy: Policy, id: MsgId) {
    || Agree(box, ideal, id) || id in strays
    || (id in flips && match policy
                       case HardDelete => false
                       case Tombstone => id in box && box[id] == Tombstoned && id !in ideal
                       case Retain => id in box && box[id] == Live)
  }

  ghost predicate Near(box: Mailbox, ideal: Mailbox, flips: set<MsgId>, strays: set<MsgId>, policy: Policy) {
    forall id: MsgId :: NearAt(box, ideal, flips, strays, policy, id)
  }

  /** The ids an interrupted attempt had touched and the finished page says are gone, or does not name. */
  function Flips(touched: set<MsgId>, p: Page, missing: set<MsgId>): set<MsgId> { touched * (DeletedIds(p) + missing) }

  function Strays(touched: set<MsgId>, p: Page): set<MsgId> { touched - Named(p) }

  lemma {:induction false} Undisturbed(box: Mailbox, policy: Policy)
    ensures Disturbed(box, box, {}, policy) && Near(box, AppliedAll(box, [], policy), {}, {}, policy)
  {
  }

  lemma FinishedNear(settled: Mailbox, box: Mailbox, ideal: Mailbox, touched: set<MsgId>, flips: set<MsgId>, strays: set<MsgId>,
                     p: Page, missing: set<MsgId>, policy: Policy)
    requires missing <= Wanted(p) && Disturbed(settled, box, touched, policy) && Near(settled, ideal, flips, strays, policy)
    ensures Near(Applied(box, p, missing, policy), Applied(ideal, p, missing, policy),
                 flips + Flips(touched, p, missing), strays + Strays(touched, p), policy)
  {
    forall id: MsgId ensures NearAt(Applied(box, p, missing, policy), Applied(ideal, p, missing, policy),
                             flips + Flips(touched, p, missing), strays + Strays(touched, p), policy, id)
    {
      assert NearAt(settled, ideal, flips, strays, policy, id);
      assert DisturbedAt(settled, box, touched, policy, id);
      FinishedNearAt(settled, box, ideal, touched, flips, strays, p, missing, policy, id);
    }
  }

  lemma FinishedNearAt(settled: Mailbox, box: Mailbox, ideal: Mailbox, touched: set<MsgId>, flips: set<MsgId>, strays: set<MsgId>,
                       p: Page, missing: set<MsgId>, policy: Policy, id: MsgId)
    requires missing <= Wanted(p) && DisturbedAt(settled, box, touched, policy, id) && NearAt(settled, ideal, flips, strays, policy, id)
    ensures NearAt(Applied(box, p, missing, policy), Applied(ideal, p, missing, policy),
                   flips + Flips(touched, p, missing), strays + Strays(touched, p), policy, id)
  {
    AppliedMeans(box, p, missing, policy, id);
    AppliedMeans(ideal, p, missing, policy, id);
  }

  lemma {:induction false} DisturbedByUpserts(settled: Mailbox, box: Mailbox, touched: set<MsgId>, got: set<MsgId>, policy: Policy)
    requires Disturbed(settled, box, touched, policy)
    ensures Disturbed(settled, Upserted(box, got), touched + got, policy)
  {
    forall id: MsgId ensures DisturbedAt(settled, Upserted(box, got), touched + got, policy, id) {
      assert DisturbedAt(settled, box, touched, policy, id);
    }
  }

  lemma {:induction false} DisturbedByRemoval(settled: Mailbox, box: Mailbox, touched: set<MsgId>, gone: set<MsgId>, policy: Policy)
    requires Disturbed(settled, box, touched, policy)
    ensures Disturbed(settled, Removed(box, gone, policy), if policy == Retain then touched else touched + gone, policy)
  {
    var now := if policy == Retain then touched else touched + gone;
    forall id: MsgId ensures DisturbedAt(settled, Removed(box, gone, policy), now, policy, id) {
      assert DisturbedAt(settled, box, touched, policy, id);
    }
  }

  // ---- the run ------------------------------------------------------------------------------

  /** What one get_parsed_message comes to. */
  datatype Fetch = Arrived | Missing | Failed

  /**
   What befalls a run: the answers to its requests, a listing by visit, checkpoint and page token, and how
   many commits it makes.
   */
  datatype Luck = Luck(fetch: (nat, nat) -> Fetch, listing: (nat, string, Option<string>) -> Option<Answer>, commits: Commits)

  /** A run nothing goes wrong with. */
  ghost predicate Smooth(l: Luck) {
    l.commits.None? && forall v, i :: l.fetch(v, i) != Failed
  }

  /** A server that still has every message it is asked for. */
  ghost predicate AllArrive(l: Luck) { forall v, i :: l.fetch(v, i) == Arrived }

  datatype Ending = Finished | Raised | CutOff

  /** What an attempt at a page gets done: the messages it commits, in order, and those it finds missing. */
  datatype Attempt = Attempt(got: seq<MsgId>, missing: set<MsgId>)

  /** The messages seen so far arrived or were missing, but for a failure or the end of the run. */
  ghost predicate Partway(seen: set<MsgId>, a: Attempt, ending: Ending) {
    Ids(a.got) <= seen && a.missing <= seen && Ids(a.got) !! a.missing && (ending == Finished ==> Ids(a.got) == seen - a.missing)
  }

  lemma OneMoreFetched(seen: set<MsgId>, a: Attempt, was: Ending, id: MsgId, now: Attempt, ending: Ending)
    requires Partway(seen, a, was) && id !in seen && (ending == Finished ==> was == Finished)
    requires now == a || now == a.(missing := a.missing + {id}) || now == a.(got := a.got + [id])
    requires now == a ==> ending != Finished
    ensures Partway(seen + {id}, now, ending) && Ids(a.got + [id]) == Ids(a.got) + {id}
  {
  }

  /** A page cut off after so many commits: among its fetches, or with its mail applied and only the checkpoint left. */
  ghost predicate CutShort(box: Mailbox, box': Mailbox, p: Page, found: Attempt, commits: nat, policy: Policy) {
    || (commits == |found.got| && Ids(found.got) <= Wanted(p) && box' == Upserted(box, Ids(found.got)))
    || (commits == |found.got| + 1 && Ids(found.got) == Wanted(p) - found.missing && box' == Applied(box, p, found.missing, policy))
  }

  /** A visit was answered with this page, which it had asked for with the token of the page before. */
  predicate Answered(l: Luck, start: string, token: Option<string>, pages: seq<Finish>, visit: nat)
    requires visit < |pages|
  {
    && l.listing(visit, start, pages[visit].token) == Some(pages[visit].answer)
    && pages[visit].token == (if visit == 0 then token else Some(pages[visit - 1].answer.next))
  }

  /** The page token that stands after these pages. */
  function TokenAfter(token: Option<string>, pages: seq<Finish>): Option<string> {
    if pages == [] then token else Some(pages[|pages| - 1].answer.next)
  }

  /** These pages are what the visits of a run were answered, one by one. */
  ghost predicate AsListed(l: Luck, start: string, token: Option<string>, pages: seq<Finish>) {
    forall v :: 0 <= v < |pages| ==> Answered(l, start, token, pages, v)
  }

  lemma AsListedOneMore(l: Luck, start: string, token: Option<string>, pages: seq<Finish>, page: Finish)
    requires AsListed(l, start, token, pages) && page.token == TokenAfter(token, pages) && l.listing(|pages|, start, page.token) == Some(page.answer)
    ensures AsListed(l, start, token, pages + [page]) && TokenAfter(token, pages + [page]) == Some(page.answer.next)
  {
    var all := pages + [page];
    forall v | 0 <= v < |all| ensures Answered(l, start, token, all, v) {
      if v < |pages| { assert Answered(l, start, token, pages, v) && all[v] == pages[v]; }
    }
  }

  ghost predicate AllFound(pages: seq<Finish>) { forall k :: 0 <= k < |pages| ==> pages[k].missing == {} }

  /** `_gmail_history_changes`. */
  method Changes(p: Page) returns (changed: set<MsgId>, deleted: set<MsgId>)
    ensures changed == ChangedIds(p) && deleted == DeletedIds(p)
  {
    changed, deleted := {}, {};
    for i := 0 to |p|
      invariant changed == ChangedIds(p[..i]) && deleted == DeletedIds(p[..i])
    {
      assert p[..i + 1][..i] == p[..i];
      changed := changed + Touched(p[i]);
      deleted := deleted + Ids(p[i].deleted);
    }
    assert p[..|p|] == p;
  }

  /** The ids to fetch, as a list; the code sorts them, and nothing below depends on the order. */
  method Listing(ids: set<MsgId>) returns (s: seq<MsgId>)
    ensures Ids(s) == ids && Distinct(s)
  {
    s := [];
    var rest := ids;
    while rest != {}
      invariant Ids(s) + rest == ids && Ids(s) !! rest && Distinct(s)
      decreases rest
    {
      var id :| id in rest;
      assert Ids(s + [id]) == Ids(s) + {id};
      assert id !in Ids(s);
      s, rest := s + [id], rest - {id};
    }
  }

  /** A sync at one moment. */
  datatype Snapshot = Snapshot(start: string, token: Option<string>, box: Mailbox, base: Mailbox, finished: seq<Finish>,
                               touched: set<MsgId>, flips: set<MsgId>, strays: set<MsgId>)

  /** A run cut off before it finished a page. */
  ghost predicate CutInFirst(was: Snapshot, l: Luck, box: Mailbox, found: Attempt, policy: Policy) {
    var answer := l.listing(0, was.start, was.token);
    l.commits.Some? && answer.Some? && CutShort(was.box, box, answer.value.page, found, l.commits.value, policy)
  }

  /** How far the mailbox may be off after these pages. */
  ghost predicate Bounded(was: Snapshot, pages: seq<Finish>, flips: set<MsgId>, strays: set<MsgId>) {
    && flips <= was.flips + was.touched && strays <= was.strays + was.touched
    && (pages == [] || was.touched <= Named(pages[0].answer.page) ==> strays == was.strays)
  }

  lemma OneMorePage(l: Luck, was: Snapshot, pages: seq<Finish>, page: Finish, policy: Policy) returns (all: seq<Finish>)
    requires AsListed(l, was.start, was.token, pages) && Sound(pages) && page.missing <= Wanted(page.answer.page)
    requires page.token == TokenAfter(was.token, pages) && l.listing(|pages|, was.start, page.token) == Some(page.answer)
    ensures |all| == |pages| + 1 && all[..|pages|] == pages && all[|pages|] == page && was.finished + all == (was.finished + pages) + [page]
    ensures AsListed(l, was.start, was.token, all) && Sound(all) && (AllFound(pages) && page.missing == {} ==> AllFound(all))
    ensures AppliedAll(was.box, all, policy) == Applied(AppliedAll(was.box, pages, policy), page.answer.page, page.missing, policy)
  {
    all := pages + [page];
    assert was.finished + all == (was.finished + pages) + [page];
    AsListedOneMore(l, was.start, was.token, pages, page);
    AppliedOneMore(was.box, pages, page, policy);
  }

  lemma OneMoreBound(was: Snapshot, pages: seq<Finish>, page: Finish, flips: set<MsgId>, strays: set<MsgId>, touched: set<MsgId>,
                     all: seq<Finish>, flipped: set<MsgId>, strayed: set<MsgId>)
    requires Bounded(was, pages, flips, strays) && touched == (if pages == [] then was.touched else {})
    requires |all| == |pages| + 1 && all[0] == (if pages == [] then page else pages[0])
    requires flipped <= flips + touched && strays <= strayed <= strays + touched
    requires touched <= Named(page.answer.page) ==> strayed == strays
    ensures Bounded(was, all, flipped, strayed)
  {
  }

  class HistorySync {
    const policy: Policy
    const concurrency: nat
    const pagesPerCycle: nat
    var start: string                    // provider_sync_token
    var token: Option<string>            // sync_page_token
    var box: Mailbox
    ghost var base: Mailbox              // the mailbox when `start` was saved
    ghost var finished: seq<Finish>      // the pages finished since
    ghost var settled: Mailbox           // the mailbox when the last of them was
    ghost var touched: set<MsgId>        // what interrupted attempts of the page at hand upserted or removed
    ghost var flips: set<MsgId>
    ghost var strays: set<MsgId>

    constructor (policy: Policy, concurrency: nat, pagesPerCycle: nat, start: string, box: Mailbox)
      ensures this.policy == policy && this.pagesPerCycle == pagesPerCycle
      ensures Valid() && this.start == start && token.None? && this.box == base == box && finished == [] && touched == flips == strays == {}
    {
      this.policy, this.concurrency, this.pagesPerCycle := policy, concurrency, pagesPerCycle;
      this.start, this.token, this.box, this.base, this.settled := start, None, box, box, box;
      finished, touched, flips, strays := [], {}, {}, {};
    }

    /** What the mailbox would be had no attempt been interrupted. */
    ghost function Ideal(): Mailbox
      reads `base, `finished
    {
      AppliedAll(base, finished, policy)
    }

    ghost predicate Valid()
      reads this
    {
      Disturbed(settled, box, touched, policy) && Near(settled, Ideal(), flips, strays, policy)
    }

    /** The sync as a run finds it. */
    ghost function Now(): Snapshot
      reads this
    {
      Snapshot(start, token, box, base, finished, touched, flips, strays)
    }

    /** The checkpoint stands. */
    twostate predicate Stands(named: set<MsgId>)
      reads this
    {
      start == old(start) && token == old(token) && base == old(base) && finished == old(finished) && settled == old(settled)
      && touched <= named && flips == old(flips) && strays == old(strays)
    }

    /** The checkpoint has moved past all its pages at once. */
    ghost predicate MovedOn(before: string, historyId: string)
      reads this
    {
      start == (if historyId != "" then historyId else before) && token.None?
      && base == box && finished == [] && touched == {} && flips == {} && strays == {}
    }

    /** The checkpoint stands where the run found it, and counts the pages finished since. */
    ghost predicate Kept(was: Snapshot, pages: seq<Finish>)
      reads this
    {
      Valid() && start == was.start && token == TokenAfter(was.token, pages) && base == was.base && finished == was.finished + pages
      && Bounded(was, pages, flips, strays)
      && (pages != [] ==> settled == AppliedAll(was.box, pages, policy))
    }

    /** The checkpoint has moved past all the pages there were. */
    ghost predicate Landed(was: Snapshot, pages: seq<Finish>, flipped: set<MsgId>, strayed: set<MsgId>)
      requires pages != []
      reads this
    {
      && Valid() && box == settled == AppliedAll(was.box, pages, policy) && MovedOn(was.start, pages[|pages| - 1].answer.historyId)
      && Near(box, AppliedAll(was.base, was.finished + pages, policy), flipped, strayed, policy) && Bounded(was, pages, flipped, strayed)
    }

    /** Nothing has been done yet, or everything of the last page. */
    ghost predicate AtRest(was: Snapshot, pages: seq<Finish>)
      reads this
    {
      if pages == [] then touched == was.touched && box == was.box else touched == {} && box == settled
    }

    /** One fetch and what it comes to: the message is upserted and committed, counted as missing, or the failure noted. */
    method FetchOne(id: MsgId, fetch: Fetch, commits: Commits, was: Ending, found: Attempt, ghost before: Mailbox, ghost seen: set<MsgId>)
      returns (left: Commits, ending: Ending, now: Attempt)
      requires box == Upserted(before, Ids(found.got)) && id !in seen && Partway(seen, found, was) && was != CutOff
      modifies `box
      ensures box == Upserted(before, Ids(now.got)) && Partway(seen + {id}, now, ending) && (left.Some? <==> commits.Some?)
      ensures fetch != Missing ==> now.missing == found.missing
      ensures left.Some? ==> left.value + |now.got| == commits.value + |found.got|
      ensures ending == (if fetch == Failed then Raised else if fetch == Arrived && commits == Some(0) then CutOff else was)
      ensures ending == CutOff ==> left == Some(0)
    {
      left, ending, now := commits, was, found;
      match fetch {
        case Failed => ending := Raised;
        case Missing => now := found.(missing := found.missing + {id});
        case Arrived =>
          if commits == Some(0) {
            ending := CutOff;
          } else {
            UpsertOneMore(before, Ids(found.got), id);
            box, left, now := Upserted(box, {id}), Spend(commits), found.(got := found.got + [id]);
          }
      }
      OneMoreFetched(seen, found, was, id, now, ending);
    }

    /** The fetches of one page, chunk by chunk, keeping what arrived before a failure is raised. */
    method FetchAndProcess(ids: seq<MsgId>, luck: Luck, visit: nat, commits: Commits)
      returns (left: Commits, ending: Ending, found: Attempt)
      requires Distinct(ids)
      modifies `box
      ensures box == Upserted(old(box), Ids(found.got)) && Partway(Ids(ids), found, ending)
      ensures Smooth(luck) && commits.None? ==> ending == Finished && left.None?
      ensures (left.Some? <==> commits.Some?) && (left.Some? ==> left.value + |found.got| == commits.value)
      ensures ending == CutOff ==> left == Some(0)
      ensures AllArrive(luck) ==> found.missing == {} && ending != Raised
    {
      left, ending, found := commits, Finished, Attempt([], {});
      var width := if concurrency > 1 then concurrency else 1;
      var room := width;
      NothingUpserted(box);
      ghost var before := box;
      for i := 0 to |ids|
        invariant room >= 1 && box == Upserted(before, Ids(found.got)) && Partway(FirstIds(ids, i), found, ending)
        invariant Smooth(luck) && commits.None? ==> ending == Finished && left.None?
        invariant ending != CutOff && (left.Some? <==> commits.Some?) && (left.Some? ==> left.value + |found.got| == commits.value)
        invariant AllArrive(luck) ==> found.missing == {} && ending != Raised
      {
        OneMoreId(ids, i);
        left, ending, found := FetchOne(ids[i], luck.fetch(visit, i), left, ending, found, before, FirstIds(ids, i));
        if ending != Finished { WithinAll(FirstIds(ids, i + 1), Ids(ids), found, ending); }
        if ending == CutOff { return; }
        room := room - 1;
        if room == 0 {
          if ending == Raised { return; }
          room := width;
        }
      }
      FirstIdsAre(ids);
    }

    /** `_apply_gmail_deletions`: one transaction. */
    method Remove(ids: set<MsgId>)
      modifies `box
      ensures box == Removed(old(box), ids, policy)
    {
      if ids == {} {
        assert Removed(box, ids, policy) == box;
        return;
      }
      box := Removed(box, ids, policy);
    }

    /** The mail of one page: fetch what changed, remove what is gone. */
    method ApplyPage(p: Page, luck: Luck, visit: nat, commits: Commits) returns (left: Commits, ending: Ending, found: Attempt)
      requires Disturbed(settled, box, touched, policy)
      modifies `box, `touched
      ensures Disturbed(settled, box, touched, policy) && touched <= old(touched) + Named(p)
      ensures ending == Finished ==>
                found.missing <= Wanted(p) && Ids(found.got) == Wanted(p) - found.missing && box == Applied(old(box), p, found.missing, policy)
      ensures ending != Finished ==> Ids(found.got) <= Wanted(p) && box == Upserted(old(box), Ids(found.got))
      ensures (left.Some? <==> commits.Some?) && (left.Some? ==> left.value + |found.got| + (if ending == Finished then 1 else 0) == commits.value)
      ensures ending == CutOff ==> left == Some(0)
      ensures AllArrive(luck) ==> found.missing == {} && ending != Raised
      ensures Smooth(luck) && commits.None? ==> ending == Finished && left.None?
    {
      var changed, deleted := Changes(p);
      var ids := Listing(changed - deleted);
      left, ending, found := FetchAndProcess(ids, luck, visit, commits);
      DisturbedByUpserts(settled, old(box), touched, Ids(found.got), policy);
      touched := touched + Ids(found.got);
      if ending != Finished { return; }
      if left == Some(0) { ending := CutOff; return; }
      DisturbedByRemoval(settled, box, touched, deleted + found.missing, policy);
      Remove(deleted + found.missing);
      left := Spend(left);
      touched := if policy == Retain then touched else touched + (deleted + found.missing);
    }

    /** The checkpoint of a page: the next page token is saved, or the new history id. */
    method SaveCheckpoint(ghost page: Finish, next: string, historyId: string)
      requires Near(box, AppliedAll(base, finished + [page], policy), flips, strays, policy)
      modifies `start, `token, `base, `finished, `settled, `touched, `flips, `strays
      ensures Valid() && touched == {} && settled == box
      ensures next != "" ==> start == old(start) && token == Some(next) && base == old(base)
                             && finished == old(finished) + [page] && flips == old(flips) && strays == old(strays)
      ensures next == "" ==> start == (if historyId != "" then historyId else old(start)) && token.None?
                             && base == box && finished == [] && flips == {} && strays == {}
    {
      Undisturbed(box, policy);
      settled, touched := box, {};
      if next != "" {
        token, finished := Some(next), finished + [page];
      } else {
        start, token, base, finished := if historyId != "" then historyId else start, None, box, [];
        flips, strays := {}, {};
      }
    }

    /** A page whose mail is applied is finished by its checkpoint. */
    method FinishPage(answer: Answer, ghost page: Finish, ghost was: Mailbox, ghost before: set<MsgId>)
      returns (ghost flipped: set<MsgId>, ghost strayed: set<MsgId>)
      requires page.answer == answer && page.missing <= Wanted(answer.page)
      requires Disturbed(settled, was, before, policy) && Near(settled, Ideal(), flips, strays, policy)
      requires box == Applied(was, answer.page, page.missing, policy)
      modifies this
      ensures Valid() && box == old(box) == settled && touched == {}
      ensures answer.next != "" ==>
                && start == old(start) && token == Some(answer.next) && base == old(base) && finished == old(finished) + [page]
                && flips == flipped && strays == strayed
      ensures answer.next == "" ==> MovedOn(old(start), answer.historyId)
      ensures Near(box, AppliedAll(old(base), old(finished) + [page], policy), flipped, strayed, policy)
      ensures old(flips) <= flipped <= old(flips) + before && old(strays) <= strayed <= old(strays) + before
      ensures before <= Named(answer.page) ==> strayed == old(strays)
    {
      FinishedNear(settled, was, Ideal(), before, flips, strays, answer.page, page.missing, policy);
      AppliedOneMore(base, finished, page, policy);
      flipped, strayed := flips + Flips(before, answer.page, page.missing), strays + Strays(before, answer.page);
      flips, strays := flipped, strayed;
      SaveCheckpoint(page, answer.next, answer.historyId);
    }

    /**
     One page and its checkpoint. `page` is the page as it was finished, if it was: the mailbox is then what
     the uninterrupted sync makes of it if and only if the page evens out every difference there was.
     `flipped` and `strayed` bound where it may differ. `found` is what the attempt got done.
     */
    method VisitPage(answer: Answer, luck: Luck, visit: nat, commits: Commits)
      returns (left: Commits, ending: Ending, ghost page: Finish, ghost flipped: set<MsgId>, ghost strayed: set<MsgId>, found: Attempt)
      requires Valid()
      modifies this
      ensures Valid() && page == Finish(old(token), answer, found.missing)
      ensures ending != Finished ==> Stands(old(touched) + Named(answer.page)) && flipped == flips && strayed == strays
      ensures ending == Finished && answer.next != "" ==>
                && start == old(start) && token == Some(answer.next) && base == old(base) && finished == old(finished) + [page]
                && touched == {} && flips == flipped && strays == strayed
      ensures ending == Finished && answer.next == "" ==> MovedOn(old(start), answer.historyId)
      ensures ending == Finished ==>
                && found.missing <= Wanted(answer.page) && settled == box == Applied(old(box), answer.page, found.missing, policy)
                && Near(box, AppliedAll(old(base), old(finished) + [page], policy), flipped, strayed, policy)
      ensures ending == Finished ==>
                (box == AppliedAll(old(base), old(finished) + [page], policy)
                 <==> forall id: MsgId :: Evens(old(box), old(Ideal()), answer.page, found.missing, policy, id))
      ensures old(flips) <= flipped <= old(flips + touched) && old(strays) <= strayed <= old(strays + touched)
      ensures old(touched) <= Named(answer.page) ==> strayed == old(strays)
      ensures ending == CutOff ==> commits.Some? && CutShort(old(box), box, answer.page, found, commits.value, policy)
      ensures ending == Finished && commits.Some? ==> left.Some? && left.value + 2 <= commits.value
      ensures AllArrive(luck) ==> found.missing == {} && ending != Raised
      ensures Smooth(luck) && commits.None? ==> ending == Finished && left.None?
    {
      ghost var was, before := box, touched;
      left, ending, found := ApplyPage(answer.page, luck, visit, commits);
      page, flipped, strayed := Finish(token, answer, found.missing), flips, strays;
      if ending != Finished { return; }
      if left == Some(0) { ending := CutOff; return; }
      AppliedOneMore(base, finished, page, policy);
      AppliedAlikeExactly(was, Ideal(), answer.page, found.missing, policy);
      flipped, strayed := FinishPage(answer, page, was, before);
      left := Spend(left);
    }

    /** One more page of a run. */
    method NextPage(answer: Answer, luck: Luck, commits: Commits, ghost was: Snapshot, ghost pages: seq<Finish>, visit: nat)
      returns (left: Commits, ending: Ending, ghost all: seq<Finish>, ghost flipped: set<MsgId>, ghost strayed: set<MsgId>, found: Attempt)
      requires Kept(was, pages) && AtRest(was, pages) && AsListed(luck, was.start, was.token, pages) && Sound(pages)
      requires visit == |pages| && luck.listing(visit, start, token) == Some(answer)
      modifies this
      ensures ending == Finished ==>
                && |all| == visit + 1 && all[visit].answer == answer && all[..visit] == pages
                && AsListed(luck, was.start, was.token, all) && Sound(all)
      ensures ending == Finished && answer.next != "" ==> Kept(was, all) && AtRest(was, all) && flips == flipped && strays == strayed
      ensures ending == Finished && answer.next == "" ==> Landed(was, all, flipped, strayed)
      ensures ending != Finished ==> all == pages && Kept(was, pages) && flipped == flips && strayed == strays
      ensures ending == CutOff && pages == [] && commits == luck.commits ==> CutInFirst(was, luck, box, found, policy)
      ensures ending == Finished && commits.Some? ==> left.Some? && left.value + 2 <= commits.value
      ensures AllArrive(luck) ==> (AllFound(pages) ==> AllFound(all)) && found.missing == {} && ending != Raised
      ensures Smooth(luck) && commits.None? ==> ending == Finished && left.None?
    {
      ghost var page;
      left, ending, page, flipped, strayed, found := VisitPage(answer, luck, visit, commits);
      all := pages;
      if ending == Finished {
        all := OneMorePage(luck, was, pages, page, policy);
        assert pages != [] ==> all[0] == all[..|pages|][0];
        OneMoreBound(was, pages, page, old(flips), old(strays), old(touched), all, flipped, strayed);
      }
    }

    /** The loop over the pages of one run. */
    method Visits(luck: Luck, ghost was: Snapshot)
      returns (steps: nat, ending: Ending, moved: bool, ghost pages: seq<Finish>,
               ghost flipped: set<MsgId>, ghost strayed: set<MsgId>, cut: Attempt)
      requires Valid() && was == Now()
      modifies this
      ensures |pages| == steps <= pagesPerCycle && AsListed(luck, was.start, was.token, pages) && Sound(pages)
      ensures moved <==> pages != [] && pages[|pages| - 1].answer.next == ""
      ensures !moved ==> Kept(was, pages) && flipped == flips && strayed == strays
      ensures moved ==> ending == Finished && Landed(was, pages, flipped, strayed)
      ensures pages != [] && ending == Finished ==> box == settled
      ensures ending == Finished && !moved ==> steps == pagesPerCycle
      ensures ending == CutOff && pages == [] ==> CutInFirst(was, luck, box, cut, policy)
      ensures luck.commits.Some? ==> 2 * steps <= luck.commits.value
      ensures AllArrive(luck) ==> AllFound(pages) && cut.missing == {} && (ending == Raised ==> luck.listing(steps, start, token).None?)
      ensures Smooth(luck) && !moved ==> steps == pagesPerCycle || luck.listing(steps, start, token).None?
    {
      steps, ending, moved, pages, flipped, strayed, cut := 0, Finished, false, [], flips, strays, Attempt([], {});
      var left: Commits := luck.commits;
      for visit := 0 to pagesPerCycle
        invariant Kept(was, pages) && AtRest(was, pages) && AsListed(luck, was.start, was.token, pages) && Sound(pages) && !moved
        invariant steps == visit == |pages| && flipped == flips && strayed == strays && ending == Finished
        invariant pages != [] ==> pages[visit - 1].answer.next != ""
        invariant luck.commits.Some? ==> left.Some? && left.value + 2 * visit <= luck.commits.value
        invariant pages == [] ==> left == luck.commits
        invariant AllArrive(luck) ==> AllFound(pages) && cut.missing == {}
        invariant Smooth(luck) ==> left.None?
      {
        var answer := luck.listing(visit, start, token);
        if answer.None? { ending := Raised; return; }
        left, ending, pages, flipped, strayed, cut := NextPage(answer.value, luck, left, was, pages, visit);
        if ending != Finished { return; }
        steps := steps + 1;
        if answer.value.next == "" {
          moved := true;
          return;
        }
      }
    }

    /**
     One run of `_process_gmail_history`, from wherever earlier runs were cut off. `pages` are the pages it
     finished. However it is cut short, the checkpoint either stands, with the saved token counting exactly
     the pages finished since, or it moves past all of them at once (`moved`). The mailbox is then what all
     the finished pages, each applied once and uninterrupted, make of the mailbox at the old checkpoint, but
     for some of the messages interrupted attempts had touched when the run began: those in `flipped`, which
     the page as it was finished says are gone, and those in `strayed`, which it no longer names. A page asked
     for again that still names what it named before leaves none of the latter. It is the same exactly if the
     mailbox the run found agrees with the uninterrupted one on every message that none of its pages evens
     out. `cut` is what the attempt it was cut off in had got done.
     */
    method Run(luck: Luck)
      returns (steps: nat, ending: Ending, moved: bool, ghost pages: seq<Finish>,
               ghost flipped: set<MsgId>, ghost strayed: set<MsgId>, cut: Attempt)
      requires Valid()
      modifies this
      ensures Valid() && |pages| == steps <= pagesPerCycle && AsListed(luck, old(start), old(token), pages) && Sound(pages)
      ensures moved <==> pages != [] && pages[|pages| - 1].answer.next == ""
      ensures !moved ==> start == old(start) && token == TokenAfter(old(token), pages)
                         && base == old(base) && finished == old(finished) + pages && flipped == flips && strayed == strays
      ensures moved ==> ending == Finished && MovedOn(old(start), pages[|pages| - 1].answer.historyId)
                        && Near(box, AppliedAll(old(base), old(finished) + pages, policy), flipped, strayed, policy)
      ensures flipped <= old(flips + touched) && strayed <= old(strays + touched)
      ensures pages == [] || old(touched) <= Named(pages[0].answer.page) ==> strayed == old(strays)
      ensures pages != [] ==> settled == AppliedAll(old(box), pages, policy) && (ending == Finished ==> box == settled)
      ensures pages != [] ==>
                (settled == AppliedAll(old(base), old(finished) + pages, policy)
                 <==> forall id: MsgId :: Evened(old(box), old(Ideal()), pages, policy, id))
      ensures ending == Finished && !moved ==> steps == pagesPerCycle
      ensures ending == CutOff && pages == [] ==>
                luck.commits.Some? && luck.listing(0, old(start), old(token)).Some?
                && CutShort(old(box), box, luck.listing(0, old(start), old(token)).value.page, cut, luck.commits.value, policy)
      ensures luck.commits.Some? ==> 2 * steps <= luck.commits.value
      ensures AllArrive(luck) ==> AllFound(pages) && cut.missing == {} && (ending == Raised ==> luck.listing(steps, start, token).None?)
      ensures Smooth(luck) && !moved ==> steps == pagesPerCycle || luck.listing(steps, start, token).None?
    {
      ghost var found, ideal := box, Ideal();
      steps, ending, moved, pages, flipped, strayed, cut := Visits(luck, Now());
      AppliedTogether(old(base), old(finished), pages, policy);
      AppliedAllAlikeExactly(found, ideal, pages, policy);
    }
  }

  lemma NothingUpserted(box: Mailbox)
    ensures Upserted(box, {}) == box
  {
  }

  lemma UpsertOneMore(box: Mailbox, some: set<MsgId>, id: MsgId)
    ensures Upserted(Upserted(box, some), {id}) == Upserted(box, some + {id})
  {
  }

  lemma OneMoreId(ids: seq<MsgId>, i: nat)
    requires i < |ids| && Distinct(ids)
    ensures FirstIds(ids, i + 1) == FirstIds(ids, i) + {ids[i]} && ids[i] !in FirstIds(ids, i) && FirstIds(ids, i + 1) <= Ids(ids)
  {
    FirstIdsMeans(ids, i, ids[i]);
    forall id | id in FirstIds(ids, i + 1) ensures id in Ids(ids) { FirstIdsMeans(ids, i + 1, id); }
  }

  lemma WithinAll(seen: set<MsgId>, all: set<MsgId>, a: Attempt, ending: Ending)
    requires Partway(seen, a, ending) && seen <= all && ending != Finished
    ensures Partway(all, a, ending)
  {
  }

  // ---- a message that comes and goes ----------------------------------------------------------

  /** Message 5 arrives; when the page is asked for again, it has also been deleted. */
  const Came: Record := Record([5], [], [], [], [])
  const Went: Record := Record([], [], [], [], [5])
  const Briefly: Answer := Answer([Came], "", "2")
  const Longer: Answer := Answer([Came, Went], "", "2")

  lemma BrieflyWanted()
    ensures Wanted(Briefly.page) == {5}
  {
    NamedOnce(Came);
    assert Ids([5]) == {5} && Touched(Came) == {5} && Ids([]) == {};
  }

  lemma LongerDeletes()
    ensures Wanted(Longer.page) == {} && DeletedIds(Longer.page) == {5}
  {
    NamedOnce(Came);
    assert [Came, Went][..1] == [Came];
    assert Ids([5]) == {5} && Touched(Came) == {5} && Ids([]) == {} && Touched(Went) == {};
    assert ChangedIds([Came, Went]) == {5} && DeletedIds([Came, Went]) == {5};
  }

  lemma NamedOnce(r: Record)
    ensures ChangedIds([r]) == Touched(r) && DeletedIds([r]) == Ids(r.deleted)
  {
    assert [r][..0] == [];
  }

  lemma TombstoneAlone()
    ensures Applied(map[5 := Live], Longer.page, {}, Tombstone) == map[5 := Tombstoned]
    ensures Applied(map[], Longer.page, {}, Tombstone) == map[]
  {
    LongerDeletes();
    assert Wanted(Longer.page) - {} == {} && DeletedIds(Longer.page) + {} == {5};
    NothingUpserted(map[5 := Live]);
    NothingUpserted(map[]);
  }

  lemma {:induction false} LeavesATombstone(pages: seq<Finish>)
    requires |pages| == 1 && pages[0].answer == Longer && pages[0].missing == {}
    ensures AppliedAll(map[5 := Live], pages, Tombstone) == map[5 := Tombstoned] && AppliedAll(map[], pages, Tombstone) == map[]
  {
    assert pages == [] + [pages[0]];
    AppliedOneMore(map[5 := Live], [], pages[0], Tombstone);
    AppliedOneMore(map[], [], pages[0], Tombstone);
    TombstoneAlone();
  }

  /** A first run is cut off after its first commit, which brought message 5 in. */
  method ACutOffRun() returns (h: HistorySync)
    ensures fresh(h) && h.Valid() && h.policy == Tombstone && h.pagesPerCycle == 1 && h.start == "1" && h.token.None?
    ensures h.base == map[] && h.finished == [] && h.box == map[5 := Live]
  {
    h := new HistorySync(Tombstone, 1, 1, "1", map[]);
    var luck := Luck((v, i) => Arrived, (v, start, token) => Some(Briefly), Some(1));
    BrieflyWanted();
    var steps, ending, moved, pages, flipped, strayed, cut := h.Run(luck);
    OnlyFive(cut.got);
    assert Upserted(map[], {5}) == map[5 := Live];
  }

  lemma OnlyFive(got: seq<MsgId>)
    requires Ids(got) <= {5} && got != []
    ensures Ids(got) == {5}
  {
    assert got[0] in Ids(got);
  }

  /** The next run finishes the page, and leaves a tombstone where the uninterrupted sync would have left nothing. */
  method ATombstoneRemains() returns (h: HistorySync, ghost pages: seq<Finish>)
    ensures h.Valid() && h.start == "2" && h.box == map[5 := Tombstoned]
    ensures |pages| == 1 && pages[0].answer == Longer && AppliedAll(map[], pages, Tombstone) == map[]
  {
    h := ACutOffRun();
    var luck := Luck((v, i) => Arrived, (v, start, token) => Some(Longer), None);
    ghost var flipped, strayed;
    var steps, ending, moved, cut;
    steps, ending, moved, pages, flipped, strayed, cut := h.Run(luck);
    assert Answered(luck, "1", None, pages, 0);
    LeavesATombstone(pages);
  }
}
