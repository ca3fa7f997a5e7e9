/**
 IMAP sequence sets as src/email/imap_writer.py reads them: `expand_uid_set` on the characters of the
 response, the pairing of `parse_copyuid`, and the chunks of `uid_chunks`.
 */
module UidSets {
  import opened Common

  // ---- decimal numbers ----------------------------------------------------------------------

  function Digit(n: nat): char
    requires n < 10
  {
    '0' + n as char
  }

  function Value(c: char): nat
    requires IsDigit(c)
  {
    (c - '0') as nat
  }

  predicate IsDigit(c: char) { '0' <= c <= '9' }

  /** Python's `isdigit` on the ASCII the response pattern admits. */
  predicate IsNumber(s: string) { s != [] && forall i :: 0 <= i < |s| ==> IsDigit(s[i]) }

  /** Python's `int`. */
  function Parse(s: string): nat
    requires IsNumber(s)
  {
    (if |s| == 1 then 0 else 10 * Parse(s[..|s| - 1])) + Value(s[|s| - 1])
  }

  function Decimal(n: nat): string {
    if n < 10 then [Digit(n)] else Decimal(n / 10) + [Digit(n % 10)]
  }

  lemma {:induction false} ParseDecimal(n: nat)
    ensures IsNumber(Decimal(n)) && Parse(Decimal(n)) == n
  {
    if n >= 10 {
      ParseDecimal(n / 10);
      assert Decimal(n)[..|Decimal(n)| - 1] == Decimal(n / 10);
    }
  }

  // ---- str.split and str.partition ----------------------------------------------------------

  function IndexOf(s: string, c: char): nat
  {
    if s == [] || s[0] == c then 0 else 1 + IndexOf(s[1..], c)
  }

  lemma {:induction false} IndexOfMeans(s: string, c: char)
    ensures IndexOf(s, c) <= |s| && (IndexOf(s, c) < |s| <==> c in s)
    ensures c !in s[..IndexOf(s, c)] && (c in s ==> s[IndexOf(s, c)] == c)
  {
    if s != [] && s[0] != c {
      IndexOfMeans(s[1..], c);
      assert s[..IndexOf(s, c)] == [s[0]] + s[1..][..IndexOf(s[1..], c)];
    }
  }

  function Split(s: string, c: char): seq<string>
    decreases |s|
  {
    IndexOfMeans(s, c);
    var i := IndexOf(s, c);
    if i == |s| then [s] else [s[..i]] + Split(s[i + 1..], c)
  }

  function Join(parts: seq<string>, c: char): string {
    if parts == [] then "" else if |parts| == 1 then parts[0] else parts[0] + [c] + Join(parts[1..], c)
  }

  lemma {:induction false} FirstOccurrence(a: string, c: char, b: string)
    requires c !in a
    ensures IndexOf(a + [c] + b, c) == |a|
  {
    var s := a + [c] + b;
    if a != [] {
      assert s[1..] == a[1..] + [c] + b;
      FirstOccurrence(a[1..], c, b);
    }
  }

  lemma {:induction false} SplitJoin(parts: seq<string>, c: char)
    requires parts != [] && forall p :: p in parts ==> c !in p
    ensures Split(Join(parts, c), c) == parts
  {
    var s := Join(parts, c);
    assert parts[0] in parts;
    if |parts| == 1 {
      IndexOfMeans(s, c);
    } else {
      FirstOccurrence(parts[0], c, Join(parts[1..], c));
      assert s[..|parts[0]|] == parts[0] && s[|parts[0]| + 1..] == Join(parts[1..], c);
      SplitJoin(parts[1..], c);
    }
  }

  // ---- expand_uid_set -----------------------------------------------------------------------

  /** range(low, high + 1). */
  function Span(low: nat, high: nat): seq<nat>
    decreases high + 1 - low
  {
    if low > high then [] else [low] + Span(low + 1, high)
  }

  /** What one comma-separated part contributes. */
  function PartUids(part: string): seq<nat> {
    if ':' in part then
      IndexOfMeans(part, ':');
      var i := IndexOf(part, ':');
      var low, high := part[..i], part[i + 1..];
      if IsNumber(low) && IsNumber(high)
      then Span(Min(Parse(low), Parse(high)), Max(Parse(low), Parse(high)))
      else []
    else if IsNumber(part) then [Parse(part)]
    else []
  }

  function ExpandParts(parts: seq<string>): seq<nat> {
    if parts == [] then [] else ExpandParts(parts[..|parts| - 1]) + PartUids(parts[|parts| - 1])
  }

  function Expand(value: string): seq<nat> { ExpandParts(Split(value, ',')) }

  /** `expand_uid_set`, part by part. */
  method ExpandUidSet(value: string) returns (uids: seq<nat>)
    ensures uids == Expand(value)
  {
    uids := [];
    var parts := Split(value, ',');
    for k := 0 to |parts|
      invariant uids == ExpandParts(parts[..k])
    {
      assert parts[..k + 1][..k] == parts[..k];
      var part := parts[k];
      if ':' in part {
        IndexOfMeans(part, ':');
        var i := IndexOf(part, ':');
        var low, high := part[..i], part[i + 1..];
        if IsNumber(low) && IsNumber(high) {
          uids := uids + Span(Min(Parse(low), Parse(high)), Max(Parse(low), Parse(high)));
        }
      } else if IsNumber(part) {
        uids := uids + [Parse(part)];
      }
    }
    assert parts[..|parts|] == parts;
  }

  // ---- every sequence set a server can write ------------------------------------------------

  /** An item of a sequence set (RFC 3501, section 9, "sequence-set"); the ends of a range may come either way round. */
  datatype Item = One(uid: nat) | Range(a: nat, b: nat)

  function Denoted(item: Item): seq<nat> {
    match item
    case One(uid) => [uid]
    case Range(a, b) => Span(Min(a, b), Max(a, b))
  }

  function AllDenoted(items: seq<Item>): seq<nat> {
    if items == [] then [] else AllDenoted(items[..|items| - 1]) + Denoted(items[|items| - 1])
  }

  function Written(item: Item): string {
    match item
    case One(uid) => Decimal(uid)
    case Range(a, b) => Decimal(a) + ":" + Decimal(b)
  }

  function AllWritten(items: seq<Item>): seq<string> {
    if items == [] then [] else AllWritten(items[..|items| - 1]) + [Written(items[|items| - 1])]
  }

  function Render(items: seq<Item>): string { Join(AllWritten(items), ',') }

  lemma DigitsOnly(n: nat, c: char)
    requires !IsDigit(c)
    ensures c !in Decimal(n)
  {
    ParseDecimal(n);
  }

  lemma WrittenReadsBack(item: Item)
    ensures ',' !in Written(item) && PartUids(Written(item)) == Denoted(item)
  {
    match item {
      case One(uid) =>
        DigitsOnly(uid, ',');
        DigitsOnly(uid, ':');
        ParseDecimal(uid);
      case Range(a, b) =>
        DigitsOnly(a, ',');
        DigitsOnly(b, ',');
        DigitsOnly(a, ':');
        ParseDecimal(a);
        ParseDecimal(b);
        var s := Written(item);
        assert s == Decimal(a) + [':'] + Decimal(b);
        FirstOccurrence(Decimal(a), ':', Decimal(b));
        assert s[..|Decimal(a)|] == Decimal(a) && s[|Decimal(a)| + 1..] == Decimal(b);
    }
  }

  lemma {:induction false} AllWrittenReadsBack(items: seq<Item>)
    ensures |AllWritten(items)| == |items| && (forall p :: p in AllWritten(items) ==> ',' !in p)
    ensures ExpandParts(AllWritten(items)) == AllDenoted(items)
  {
    if items != [] {
      var init := items[..|items| - 1];
      AllWrittenReadsBack(init);
      WrittenReadsBack(items[|items| - 1]);
      assert AllWritten(items)[..|items| - 1] == AllWritten(init);
    }
  }

  /** Reading a sequence set gives the UIDs it denotes, in the order it lists them. */
  lemma ExpandRender(items: seq<Item>)
    requires items != []
    ensures Expand(Render(items)) == AllDenoted(items)
  {
    AllWrittenReadsBack(items);
    SplitJoin(AllWritten(items), ',');
  }

  // ---- range compression --------------------------------------------------------------------

  /** An ascending list as the shortest sequence set: each maximal run as one range. */
  function Compress(uids: seq<nat>): seq<Item> {
    if uids == [] then []
    else Extended(Compress(uids[..|uids| - 1]), uids[|uids| - 1])
  }

  /** The run one UID longer, if the UID follows it. */
  function Lengthened(run: Item, uid: nat): Option<Item> {
    match run
    case One(a) => if uid == a + 1 then Some(Range(a, uid)) else None
    case Range(a, b) => if a <= b && uid == b + 1 then Some(Range(a, uid)) else None
  }

  /** One more UID: it lengthens the last run or starts another. */
  function Extended(items: seq<Item>, uid: nat): seq<Item> {
    if items == [] then [One(uid)]
    else
      match Lengthened(items[|items| - 1], uid)
      case Some(run) => items[..|items| - 1] + [run]
      case None => items + [One(uid)]
  }

  function Bottom(run: Item): nat { match run case One(a) => a case Range(a, _) => a }

  function Top(run: Item): nat { match run case One(a) => a case Range(_, b) => b }

  /** A range has two UIDs or more, and no run begins where the one before it ends. */
  ghost predicate Maximal(items: seq<Item>) {
    && (forall i :: 0 <= i < |items| && items[i].Range? ==> Bottom(items[i]) < Top(items[i]))
    && (forall i, j :: 0 <= i && j == i + 1 && j < |items| ==> Top(items[i]) + 1 != Bottom(items[j]))
  }

  lemma LengthenedExactly(run: Item, uid: nat)
    requires run.Range? ==> Bottom(run) < Top(run)
    ensures Lengthened(run, uid) == if Top(run) + 1 == uid then Some(Range(Bottom(run), uid)) else None
  {
  }

  lemma ExtendedIsMaximal(items: seq<Item>, uid: nat)
    requires Maximal(items)
    ensures var more := Extended(items, uid); Maximal(more) && more != [] && Top(more[|more| - 1]) == uid
  {
    if items != [] {
      var init, last := items[..|items| - 1], items[|items| - 1];
      LengthenedExactly(last, uid);
      assert Extended(items, uid) == if Top(last) + 1 == uid then init + [Range(Bottom(last), uid)] else items + [One(uid)];
    }
  }

  lemma {:induction false} CompressIsMaximal(uids: seq<nat>)
    ensures Maximal(Compress(uids))
    ensures uids != [] ==> Compress(uids) != [] && Top(Compress(uids)[|Compress(uids)| - 1]) == uids[|uids| - 1]
  {
    if uids != [] {
      var init, uid := uids[..|uids| - 1], uids[|uids| - 1];
      CompressIsMaximal(init);
      ExtendedIsMaximal(Compress(init), uid);
    }
  }

  lemma {:induction false} SpanGrows(a: nat, b: nat)
    requires a <= b
    ensures Span(a, b + 1) == Span(a, b) + [b + 1]
    decreases b - a
  {
    if a < b {
      SpanGrows(a + 1, b);
    } else {
      assert Span(a, b + 1) == [a] + Span(a + 1, b + 1);
    }
  }

  lemma DenotedLast(init: seq<Item>, last: Item)
    ensures AllDenoted(init + [last]) == AllDenoted(init) + Denoted(last)
  {
    assert (init + [last])[..|init|] == init;
  }

  lemma LengthenedDenotes(run: Item, uid: nat)
    requires Lengthened(run, uid).Some?
    ensures Denoted(Lengthened(run, uid).value) == Denoted(run) + [uid]
  {
    match run {
      case One(a) => SpanGrows(a, a);
      case Range(a, b) => SpanGrows(a, b);
    }
  }

  lemma ExtendedDenotes(items: seq<Item>, uid: nat)
    ensures Extended(items, uid) != [] && AllDenoted(Extended(items, uid)) == AllDenoted(items) + [uid]
  {
    DenotedLast(items, One(uid));
    if items != [] && Lengthened(items[|items| - 1], uid).Some? {
      LengthenedDenotes(items[|items| - 1], uid);
      DenotedLast(items[..|items| - 1], Lengthened(items[|items| - 1], uid).value);
    }
  }

  lemma {:induction false} CompressDenotes(uids: seq<nat>)
    ensures AllDenoted(Compress(uids)) == uids && (uids != [] ==> Compress(uids) != [])
  {
    if uids != [] {
      var init := uids[..|uids| - 1];
      CompressDenotes(init);
      ExtendedDenotes(Compress(init), uids[|uids| - 1]);
    }
  }

  /** Expanding a range-compressed UID list returns that list. */
  lemma ExpandCompressed(uids: seq<nat>)
    requires uids != []
    ensures Expand(Render(Compress(uids))) == uids
  {
    CompressDenotes(uids);
    ExpandRender(Compress(uids));
  }
}
