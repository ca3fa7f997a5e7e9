/**
 Exhaustive keyset search with deduplication, from src/services/mail_service.py: the rows are those the
 filters already matched, in whatever order the database holds them.
 */
module MailSearch {
  import opened Common

  /** A matching message: `message` is its lowercased Message-ID, if any and not empty. */
  datatype Row = Row(id: nat, date: Option<int>, message: Option<string>, content: Option<string>)

  datatype Mode = KeepAll | Exact | Mirror

  /** The logical key; the code's three prefixes keep the three kinds apart. */
  datatype LogicalKey = ById(id: nat) | ByMessage(message: string) | ByContent(content: string)

  datatype Cursor = Cursor(date: Option<int>, id: nat)

  datatype Page = Page(messages: seq<Row>, next: Option<Cursor>)

  /** `_dedupe_key`. */
  function KeyOf(r: Row, mode: Mode): LogicalKey {
    var messageKey := if r.message.Some? then ByMessage(r.message.value) else ById(r.id);
    match mode
    case KeepAll => ById(r.id)
    case Exact => messageKey
    case Mirror => if r.content.Some? then ByContent(r.content.value) else messageKey
  }

  /** The primary key. */
  predicate UniqueIds(rows: seq<Row>) {
    forall i, j :: 0 <= i < j < |rows| ==> rows[i].id != rows[j].id
  }

  // ---- ORDER BY date desc nulls last, id desc -----------------------------------------------

  /** a comes before b in every answer. */
  predicate Above(a: Row, b: Row) {
    if a.date == b.date then a.id > b.id
    else b.date.None? || (a.date.Some? && a.date.value > b.date.value)
  }

  ghost predicate Ordered(s: seq<Row>) {
    forall i, j :: 0 <= i < j < |s| ==> Above(s[i], s[j])
  }

  function Insert(s: seq<Row>, r: Row): seq<Row> {
    if s == [] || Above(r, s[0]) then [r] + s else [s[0]] + Insert(s[1..], r)
  }

  function Sorted(rows: seq<Row>): seq<Row> {
    if rows == [] then [] else Insert(Sorted(rows[1..]), rows[0])
  }

  lemma {:induction false} InsertIsOrdered(s: seq<Row>, r: Row)
    requires Ordered(s) && forall x :: x in s ==> x.id != r.id
    ensures Ordered(Insert(s, r)) && |Insert(s, r)| == |s| + 1
    ensures forall x :: x in Insert(s, r) <==> x == r || x in s
  {
    if s != [] && !Above(r, s[0]) {
      assert s[0] in s;
      assert forall x :: x in s <==> x == s[0] || x in s[1..];
      InsertIsOrdered(s[1..], r);
      var rest := Insert(s[1..], r);
      assert forall x :: x in s[1..] ==> Above(s[0], x);
      assert forall k :: 0 <= k < |rest| ==> rest[k] in rest;
    }
  }

  lemma {:induction false} SortedIsOrdered(rows: seq<Row>)
    requires UniqueIds(rows)
    ensures Ordered(Sorted(rows)) && |Sorted(rows)| == |rows|
    ensures forall x :: x in Sorted(rows) <==> x in rows
  {
    if rows != [] {
      SortedIsOrdered(rows[1..]);
      forall x | x in Sorted(rows[1..]) ensures x.id != rows[0].id {
        assert x in rows[1..];
      }
      InsertIsOrdered(Sorted(rows[1..]), rows[0]);
      assert forall x :: x in rows <==> x == rows[0] || x in rows[1..];
    }
  }

  /** Only one list of given rows is in order. */
  lemma {:induction false} OneOrder(a: seq<Row>, b: seq<Row>)
    requires Ordered(a) && Ordered(b) && forall x :: x in a <==> x in b
    ensures a == b
  {
    assert a != [] ==> a[0] in b;
    assert b != [] ==> b[0] in a;
    if a != [] && b != [] {
      assert a[0] == b[0];
      assert forall x :: x in a[1..] ==> Above(a[0], x);
      assert forall x :: x in b[1..] ==> Above(b[0], x);
      forall x ensures x in a[1..] <==> x in b[1..] {
        assert x in a <==> x == a[0] || x in a[1..];
        assert x in b <==> x == b[0] || x in b[1..];
      }
      OneOrder(a[1..], b[1..]);
    }
  }

  // ---- one page -----------------------------------------------------------------------------

  /** The WHERE clause of `_apply_keyset`. */
  predicate PastCursor(r: Row, c: Cursor) {
    if c.date.None? then r.date.None? && r.id < c.id
    else (r.date.Some? && r.date.value < c.date.value) || r.date.None? || (r.date == c.date && r.id < c.id)
  }

  predicate Admits(c: Option<Cursor>, r: Row) { c.None? || PastCursor(r, c.value) }

  function Keyset(rows: seq<Row>, c: Option<Cursor>): seq<Row> {
    if rows == [] then [] else (if Admits(c, rows[0]) then [rows[0]] else []) + Keyset(rows[1..], c)
  }

  function PageLimit(limit: int): nat { Min(Max(1, limit), 100) }

  /** A page of what the database found, one row more than the page having been fetched to see if there is another. */
  function PageOf(found: seq<Row>, size: nat): Page {
    var fetched := if |found| > size + 1 then found[..size + 1] else found;
    var more := |fetched| > size;
    var messages := if more then fetched[..size] else fetched;
    Page(messages, if more && messages != [] then Some(Cursor(messages[|messages| - 1].date, messages[|messages| - 1].id)) else None)
  }

  /** One request. */
  function Search(rows: seq<Row>, c: Option<Cursor>, limit: int): Page {
    PageOf(Sorted(Keyset(rows, c)), PageLimit(limit))
  }

  /** The keyset of a row is what comes after the row: nulls and ties included. */
  lemma KeysetIsBelow(a: Row, r: Row)
    ensures PastCursor(r, Cursor(a.date, a.id)) <==> Above(a, r)
  {
  }

  lemma {:induction false} KeysetExactly(rows: seq<Row>, c: Option<Cursor>)
    requires UniqueIds(rows)
    ensures UniqueIds(Keyset(rows, c)) && |Keyset(rows, c)| <= |rows|
    ensures forall x :: x in Keyset(rows, c) <==> x in rows && Admits(c, x)
  {
    if rows != [] {
      KeysetExactly(rows[1..], c);
      assert forall x :: x in rows <==> x == rows[0] || x in rows[1..];
      var rest := Keyset(rows[1..], c);
      forall k | 0 <= k < |rest| ensures rest[k].id != rows[0].id {
        assert rest[k] in rest && rest[k] in rows[1..];
      }
    }
  }

  /** The cursor that points at the k-th row of the whole answer, or none at the start. */
  function CursorAt(all: seq<Row>, k: nat): Option<Cursor>
    requires k <= |all|
  {
    if k == 0 then None else Some(Cursor(all[k - 1].date, all[k - 1].id))
  }

  /** From a cursor at row k, the database finds exactly the rest of the answer, in order. */
  lemma RestAfterCursor(rows: seq<Row>, k: nat)
    requires UniqueIds(rows) && k <= |Sorted(rows)|
    ensures Sorted(Keyset(rows, CursorAt(Sorted(rows), k))) == Sorted(rows)[k..]
  {
    var all := Sorted(rows);
    var c := CursorAt(all, k);
    SortedIsOrdered(rows);
    KeysetExactly(rows, c);
    SortedIsOrdered(Keyset(rows, c));
    forall x ensures x in all[k..] <==> x in Keyset(rows, c) {
      if x in all {
        var i :| 0 <= i < |all| && all[i] == x;
        if k > 0 {
          KeysetIsBelow(all[k - 1], x);
          assert i < k - 1 ==> Above(x, all[k - 1]);
          assert k - 1 < i ==> Above(all[k - 1], x);
        }
        assert i >= k ==> all[k..][i - k] == x;
        assert x in all[k..] ==> i >= k by {
          if x in all[k..] {
            var j :| 0 <= j < |all[k..]| && all[k..][j] == x;
            assert all[k + j] == x;
            assert i < k + j ==> Above(all[i], all[k + j]);
          }
        }
      }
    }
    OneOrder(Sorted(Keyset(rows, c)), all[k..]);
  }

  // ---- following next_cursor ----------------------------------------------------------------

  lemma PageOfIsPrefix(found: seq<Row>, size: nat)
    requires size > 0
    ensures var page := PageOf(found, size);
            var n := |page.messages|;
            && n <= |found| && page.messages == found[..n]
            && n == (if |found| < size then |found| else size) && (page.next.None? <==> n == |found|)
            && (page.next.Some? ==> n > 0 && page.next == Some(Cursor(found[n - 1].date, found[n - 1].id)))
  {
    if |found| > size {
      var fetched := if |found| > size + 1 then found[..size + 1] else found;
      assert fetched[..size] == found[..size];
    }
  }

  /** How many messages a request may ask for: one to a hundred. */
  function PageSize(limit: int): int { if limit < 1 then 1 else if limit > 100 then 100 else limit }

  /** A page holds as many of the next rows as it may, and says where to go on exactly if there are more. */
  lemma NextCursorIsNextRow(rows: seq<Row>, k: nat, limit: int)
    requires UniqueIds(rows) && k <= |Sorted(rows)|
    ensures var all := Sorted(rows);
            var page := Search(rows, CursorAt(all, k), limit);
            var n := |page.messages|;
            && k + n <= |all| && page.messages == all[k..k + n]
            && n == (if |all| - k < PageSize(limit) then |all| - k else PageSize(limit)) && (page.next.None? <==> k + n == |all|)
            && (page.next.Some? ==> n > 0 && page.next == CursorAt(all, k + n))
  {
    var all := Sorted(rows);
    RestAfterCursor(rows, k);
    assert PageLimit(limit) > 0;
    PageOfIsPrefix(all[k..], PageLimit(limit));
    var n := |PageOf(all[k..], PageLimit(limit)).messages|;
    assert all[k..][..n] == all[k..k + n];
    assert n > 0 ==> all[k..][n - 1] == all[k + n - 1];
  }

  /** Every page from a cursor on, following next_cursor; the page sizes may differ from request to request. */
  function AllPages(rows: seq<Row>, c: Option<Cursor>, limits: nat -> int, request: nat, ghost k: nat): (answer: seq<Row>)
    requires UniqueIds(rows) && k <= |Sorted(rows)| && c == CursorAt(Sorted(rows), k)
    ensures answer == Sorted(rows)[k..]
    decreases |Sorted(rows)| - k
  {
    NextCursorIsNextRow(rows, k, limits(request));
    var page := Search(rows, c, limits(request));
    Glue(Sorted(rows), k, |page.messages|);
    if page.next.None? then page.messages
    else page.messages + AllPages(rows, page.next, limits, request + 1, k + |page.messages|)
  }

  lemma Glue(all: seq<Row>, k: nat, n: nat)
    requires k + n <= |all|
    ensures all[k..] == all[k..k + n] + all[k + n..]
  {
  }

  // ---- deduplication ------------------------------------------------------------------------

  /** row_number() == 1 in the partition of its key. */
  predicate Represents(r: Row, rows: seq<Row>, mode: Mode) {
    forall q :: q in rows && KeyOf(q, mode) == KeyOf(r, mode) && q != r ==> Above(r, q)
  }

  function RepresentativesAmong(some: seq<Row>, rows: seq<Row>, mode: Mode): seq<Row> {
    if some == [] then []
    else (if Represents(some[0], rows, mode) then [some[0]] else []) + RepresentativesAmong(some[1..], rows, mode)
  }

  function Representatives(rows: seq<Row>, mode: Mode): seq<Row> { RepresentativesAmong(rows, rows, mode) }

  lemma {:induction false} RepresentativesExactly(some: seq<Row>, rows: seq<Row>, mode: Mode)
    requires UniqueIds(some)
    ensures UniqueIds(RepresentativesAmong(some, rows, mode))
    ensures forall x :: x in RepresentativesAmong(some, rows, mode) <==> x in some && Represents(x, rows, mode)
  {
    if some != [] {
      RepresentativesExactly(some[1..], rows, mode);
      assert forall x :: x in some <==> x == some[0] || x in some[1..];
      var rest := RepresentativesAmong(some[1..], rows, mode);
      forall k | 0 <= k < |rest| ensures rest[k].id != some[0].id {
        assert rest[k] in rest && rest[k] in some[1..];
      }
    }
  }

  predicate SeenKey(s: seq<Row>, key: LogicalKey, mode: Mode) {
    exists r :: r in s && KeyOf(r, mode) == key
  }

  /** A list with every later row of a key it has already shown removed. */
  function Firsts(s: seq<Row>, mode: Mode): seq<Row> {
    if s == [] then []
    else Firsts(s[..|s| - 1], mode)
         + (if SeenKey(s[..|s| - 1], KeyOf(s[|s| - 1], mode), mode) then [] else [s[|s| - 1]])
  }

  /** No earlier row has the key of the i-th. */
  ghost predicate FirstOfKey(s: seq<Row>, i: nat, mode: Mode)
    requires i < |s|
  {
    forall j :: 0 <= j < i ==> KeyOf(s[j], mode) != KeyOf(s[i], mode)
  }

  lemma {:induction false} FirstsAreOrdered(s: seq<Row>, mode: Mode)
    requires Ordered(s)
    ensures Ordered(Firsts(s, mode)) && forall x :: x in Firsts(s, mode) ==> x in s
  {
    if s != [] {
      var init, last := s[..|s| - 1], s[|s| - 1];
      FirstsAreOrdered(init, mode);
      var kept := Firsts(init, mode);
      forall k | 0 <= k < |kept| ensures Above(kept[k], last) {
        assert kept[k] in kept && kept[k] in init;
      }
    }
  }

  lemma {:induction false} FirstsExactly(s: seq<Row>, mode: Mode, i: nat)
    requires Ordered(s) && i < |s|
    ensures s[i] in Firsts(s, mode) <==> FirstOfKey(s, i, mode)
    decreases |s|
  {
    var init, last := s[..|s| - 1], s[|s| - 1];
    FirstsAreOrdered(init, mode);
    if i < |init| {
      FirstsExactly(init, mode, i);
      assert s[i] == init[i] && Above(s[i], last);
      SameFirst(s, init, i, mode);
    } else {
      NotAmongEarlier(s, mode);
      SeenMeansEarlier(s, mode);
    }
  }

  lemma SameFirst(s: seq<Row>, init: seq<Row>, i: nat, mode: Mode)
    requires i < |init| && |init| < |s| && init == s[..|init|]
    ensures FirstOfKey(init, i, mode) <==> FirstOfKey(s, i, mode)
  {
    assert forall j :: 0 <= j <= i ==> init[j] == s[j];
  }

  lemma NotAmongEarlier(s: seq<Row>, mode: Mode)
    requires Ordered(s) && s != []
    ensures s[|s| - 1] !in Firsts(s[..|s| - 1], mode)
  {
    FirstsAreOrdered(s[..|s| - 1], mode);
    var last := s[|s| - 1];
    assert forall x :: x in s[..|s| - 1] ==> Above(x, last);
  }

  lemma SeenMeansEarlier(s: seq<Row>, mode: Mode)
    requires s != []
    ensures SeenKey(s[..|s| - 1], KeyOf(s[|s| - 1], mode), mode) <==> !FirstOfKey(s, |s| - 1, mode)
  {
    var init, last := s[..|s| - 1], s[|s| - 1];
    if SeenKey(init, KeyOf(last, mode), mode) {
      var r :| r in init && KeyOf(r, mode) == KeyOf(last, mode);
      var j :| 0 <= j < |init| && init[j] == r;
      assert s[j] == r;
    } else {
      forall j | 0 <= j < |s| - 1 ensures KeyOf(s[j], mode) != KeyOf(last, mode) {
        assert init[j] == s[j] && s[j] in init;
      }
    }
  }

  /** The window function keeps exactly the first row of each key in answer order. */
  lemma RepresentativesAreFirsts(rows: seq<Row>, mode: Mode)
    requires UniqueIds(rows)
    ensures UniqueIds(Representatives(rows, mode))
    ensures Sorted(Representatives(rows, mode)) == Firsts(Sorted(rows), mode)
  {
    var all := Sorted(rows);
    SortedIsOrdered(rows);
    RepresentativesExactly(rows, rows, mode);
    SortedIsOrdered(Representatives(rows, mode));
    FirstsAreOrdered(all, mode);
    forall x ensures x in Sorted(Representatives(rows, mode)) <==> x in Firsts(all, mode) {
      if x in all {
        FirstIsRepresentative(rows, all, x, mode);
      }
    }
    OneOrder(Sorted(Representatives(rows, mode)), Firsts(all, mode));
  }

  lemma FirstIsRepresentative(rows: seq<Row>, all: seq<Row>, x: Row, mode: Mode)
    requires Ordered(all) && x in all && forall q :: q in all <==> q in rows
    ensures Represents(x, rows, mode) <==> x in Firsts(all, mode)
  {
    var i :| 0 <= i < |all| && all[i] == x;
    FirstsExactly(all, mode, i);
    if Represents(x, rows, mode) {
      forall j | 0 <= j < i ensures KeyOf(all[j], mode) != KeyOf(x, mode) {
        assert all[j] in rows && Above(all[j], x);
      }
    }
    if FirstOfKey(all, i, mode) {
      forall q | q in rows && KeyOf(q, mode) == KeyOf(x, mode) && q != x ensures Above(x, q) {
        var j :| 0 <= j < |all| && all[j] == q;
      }
    }
  }

  /** `total_count`, which counts raw rows without deduplication and first-ranked ones with it. */
  function TotalCount(rows: seq<Row>, mode: Mode): nat {
    if mode == KeepAll then |rows| else |Representatives(rows, mode)|
  }

  /** The rows the pages are drawn from: without deduplication no ranking is applied. */
  function Selected(rows: seq<Row>, mode: Mode): seq<Row> {
    if mode == KeepAll then rows else Representatives(rows, mode)
  }

  lemma NothingToDrop(rows: seq<Row>)
    requires UniqueIds(rows)
    ensures Firsts(Sorted(rows), KeepAll) == Sorted(rows)
  {
    SortedIsOrdered(rows);
    var all := Sorted(rows);
    FirstsAreOrdered(all, KeepAll);
    forall x | x in all ensures x in Firsts(all, KeepAll) {
      var i :| 0 <= i < |all| && all[i] == x;
      forall j | 0 <= j < i ensures KeyOf(all[j], KeepAll) != KeyOf(all[i], KeepAll) {
        SortedIdsDiffer(rows, j, i);
      }
      FirstsExactly(all, KeepAll, i);
    }
    OneOrder(Firsts(all, KeepAll), all);
  }

  lemma SortedIdsDiffer(rows: seq<Row>, j: nat, i: nat)
    requires UniqueIds(rows) && j < i < |Sorted(rows)|
    ensures Sorted(rows)[j].id != Sorted(rows)[i].id
  {
    SortedIsOrdered(rows);
    var a, b := Sorted(rows)[j], Sorted(rows)[i];
    assert Above(a, b) && a in rows && b in rows;
    var p :| 0 <= p < |rows| && rows[p] == a;
    var q :| 0 <= q < |rows| && rows[q] == b;
    assert p < q ==> rows[p].id != rows[q].id;
    assert q < p ==> rows[q].id != rows[p].id;
  }

  /**
   For a fixed database, following next_cursor until there is none yields, in order, without repeats or
   gaps, exactly the matching rows with every later row of the same logical key removed; as many as
   total_count says.
   */
  lemma SearchIsExhaustive(rows: seq<Row>, mode: Mode, limits: nat -> int)
    requires UniqueIds(rows)
    ensures UniqueIds(Selected(rows, mode))
    ensures AllPages(Selected(rows, mode), None, limits, 0, 0) == Firsts(Sorted(rows), mode)
    ensures |AllPages(Selected(rows, mode), None, limits, 0, 0)| == TotalCount(rows, mode)
  {
    if mode == KeepAll {
      NothingToDrop(rows);
    } else {
      RepresentativesAreFirsts(rows, mode);
    }
    var chosen := Selected(rows, mode);
    SortedIsOrdered(chosen);
    assert Sorted(chosen)[0..] == Sorted(chosen);
  }

  // ---- what counts as the same message ----------------------------------------------------------

  /** Two rows that deduplication treats as one message: the same row, or the same fingerprint or Message-ID as the mode has it. */
  predicate Duplicates(a: Row, b: Row, mode: Mode) {
    || a.id == b.id
    || (mode == Mirror && a.content.Some? && a.content == b.content)
    || (mode == Exact && a.message.Some? && a.message == b.message)
    || (mode == Mirror && a.content.None? && b.content.None? && a.message.Some? && a.message == b.message)
  }

  lemma SameKeyExactly(a: Row, b: Row, mode: Mode)
    requires a.id == b.id ==> a == b
    ensures KeyOf(a, mode) == KeyOf(b, mode) <==> Duplicates(a, b, mode)
  {
  }

  lemma FirstLikeIt(s: seq<Row>, i: nat, mode: Mode) returns (j: nat)
    requires i < |s|
    ensures j <= i && KeyOf(s[j], mode) == KeyOf(s[i], mode) && FirstOfKey(s, j, mode)
  {
    if FirstOfKey(s, i, mode) {
      j := i;
    } else {
      var k :| 0 <= k < i && KeyOf(s[k], mode) == KeyOf(s[i], mode);
      j := FirstLikeIt(s, k, mode);
    }
  }

  lemma SortedIdsAreUnique(rows: seq<Row>, a: Row, b: Row)
    requires UniqueIds(rows) && a in rows && b in rows && a.id == b.id
    ensures a == b
  {
    var p :| 0 <= p < |rows| && rows[p] == a;
    var q :| 0 <= q < |rows| && rows[q] == b;
    assert p == q;
  }

  /** The answer shows no message twice, ... */
  lemma NoMessageTwice(rows: seq<Row>, mode: Mode, a: Row, b: Row)
    requires UniqueIds(rows) && a in Firsts(Sorted(rows), mode) && b in Firsts(Sorted(rows), mode) && Duplicates(a, b, mode)
    ensures a == b
  {
    var all := Sorted(rows);
    SortedIsOrdered(rows);
    FirstsAreOrdered(all, mode);
    var i :| 0 <= i < |all| && all[i] == a;
    var j :| 0 <= j < |all| && all[j] == b;
    FirstsExactly(all, mode, i);
    FirstsExactly(all, mode, j);
    if a.id == b.id { SortedIdsAreUnique(rows, a, b); }
    SameKeyExactly(a, b, mode);
  }

  /** ... and every matching message once: the row itself or a duplicate above it. */
  lemma EveryMessageOnce(rows: seq<Row>, mode: Mode, r: Row) returns (shown: Row)
    requires UniqueIds(rows) && r in rows
    ensures shown in Firsts(Sorted(rows), mode) && Duplicates(shown, r, mode) && (shown == r || Above(shown, r))
  {
    var all := Sorted(rows);
    SortedIsOrdered(rows);
    var i :| 0 <= i < |all| && all[i] == r;
    var j := FirstLikeIt(all, i, mode);
    FirstsExactly(all, mode, j);
    shown := all[j];
    if shown.id == r.id { SortedIdsAreUnique(rows, shown, r); }
    SameKeyExactly(shown, r, mode);
  }
}
