/** The line endings of an outgoing literal: `with_crlf_line_endings` of src/email/draft_builder.py. */
module LineEndings {
  newtype byte = x: int | 0 <= x < 256

  type Bytes = seq<byte>

  const CR: byte := 13
  const LF: byte := 10
  const CRLF: Bytes := [CR, LF]

  predicate StartsCrlf(raw: Bytes) { |raw| >= 2 && raw[0] == CR && raw[1] == LF }

  /** raw.count(b"\r\n") */
  function CountCrlf(raw: Bytes): nat {
    if raw == [] then 0 else if StartsCrlf(raw) then 1 + CountCrlf(raw[2..]) else CountCrlf(raw[1..])
  }

  function Count(raw: Bytes, b: byte): nat {
    if raw == [] then 0 else (if raw[0] == b then 1 else 0) + Count(raw[1..], b)
  }

  /** The regular expression substitution: CRLF, a lone CR or a lone LF becomes CRLF. */
  function Rewritten(raw: Bytes): Bytes {
    if raw == [] then []
    else if StartsCrlf(raw) then CRLF + Rewritten(raw[2..])
    else if raw[0] == CR || raw[0] == LF then CRLF + Rewritten(raw[1..])
    else [raw[0]] + Rewritten(raw[1..])
  }

  /** The counting fast path. */
  predicate FastPath(raw: Bytes) { Count(raw, LF) == CountCrlf(raw) && Count(raw, CR) == CountCrlf(raw) }

  /** `with_crlf_line_endings`. */
  function WithCrlf(raw: Bytes): Bytes { if FastPath(raw) then raw else Rewritten(raw) }

  // ---- what it means ------------------------------------------------------------------------

  /** The i-th byte is no bare CR or LF. */
  predicate Paired(raw: Bytes, i: nat)
    requires i < |raw|
  {
    && (raw[i] == CR ==> i + 1 < |raw| && raw[i + 1] == LF)
    && (raw[i] == LF ==> 0 < i && raw[i - 1] == CR)
  }

  /** Every CR is followed by an LF and every LF preceded by a CR (RFC 5322, section 2.3). */
  predicate NoBareEnding(raw: Bytes) {
    forall i :: 0 <= i < |raw| ==> Paired(raw, i)
  }

  /** Cutting off a front that is in order and does not end in a CR. */
  lemma WithoutFront(raw: Bytes, n: nat)
    requires 0 < n <= |raw| && raw[n - 1] != CR && forall i :: 0 <= i < n ==> Paired(raw, i)
    ensures NoBareEnding(raw) <==> NoBareEnding(raw[n..])
  {
    var rest := raw[n..];
    forall i | 0 <= i < |rest| ensures Paired(rest, i) <==> Paired(raw, n + i) {
      assert rest[i] == raw[n + i];
    }
    if NoBareEnding(rest) {
      forall i | 0 <= i < |raw| ensures Paired(raw, i) {
        assert i >= n ==> Paired(rest, i - n);
      }
    }
  }

  /** NoBareEnding, read from the front. */
  lemma NoBareEndingStep(raw: Bytes)
    requires raw != []
    ensures StartsCrlf(raw) ==> (NoBareEnding(raw) <==> NoBareEnding(raw[2..]))
    ensures !StartsCrlf(raw) && (raw[0] == CR || raw[0] == LF) ==> !NoBareEnding(raw)
    ensures !StartsCrlf(raw) && raw[0] != CR && raw[0] != LF ==> (NoBareEnding(raw) <==> NoBareEnding(raw[1..]))
  {
    if StartsCrlf(raw) {
      WithoutFront(raw, 2);
    } else if raw[0] == CR || raw[0] == LF {
      assert !Paired(raw, 0);
    } else {
      WithoutFront(raw, 1);
    }
  }

  lemma {:induction false} CountsBound(raw: Bytes)
    ensures CountCrlf(raw) <= Count(raw, CR) && CountCrlf(raw) <= Count(raw, LF)
  {
    if raw != [] {
      if StartsCrlf(raw) {
        assert raw[1..][1..] == raw[2..];
        CountsBound(raw[2..]);
      } else {
        CountsBound(raw[1..]);
      }
    }
  }

  /** The fast path is taken exactly when every CR and every LF is part of a CRLF. */
  lemma {:induction false} FastPathExactly(raw: Bytes)
    ensures FastPath(raw) <==> NoBareEnding(raw)
  {
    if raw != [] {
      NoBareEndingStep(raw);
      if StartsCrlf(raw) {
        assert raw[1..][1..] == raw[2..];
        assert Count(raw, CR) == 1 + Count(raw[2..], CR) && Count(raw, LF) == 1 + Count(raw[2..], LF);
        FastPathExactly(raw[2..]);
      } else {
        CountsBound(raw[1..]);
        FastPathExactly(raw[1..]);
      }
    }
  }

  lemma {:induction false} NothingToRewrite(raw: Bytes)
    requires NoBareEnding(raw)
    ensures Rewritten(raw) == raw
  {
    if raw != [] {
      NoBareEndingStep(raw);
      if StartsCrlf(raw) {
        NothingToRewrite(raw[2..]);
        assert raw == CRLF + raw[2..];
      } else {
        NothingToRewrite(raw[1..]);
      }
    }
  }

  /** The fast path agrees with the full rewrite on every byte string. */
  lemma FastPathAgrees(raw: Bytes)
    ensures WithCrlf(raw) == Rewritten(raw)
  {
    FastPathExactly(raw);
    if NoBareEnding(raw) {
      NothingToRewrite(raw);
    }
  }

  lemma {:induction false} RewrittenHasNoBareEnding(raw: Bytes)
    ensures NoBareEnding(Rewritten(raw))
  {
    if raw != [] {
      var n := if StartsCrlf(raw) then 2 else 1;
      var rest := Rewritten(raw[n..]);
      RewrittenHasNoBareEnding(raw[n..]);
      var all := Rewritten(raw);
      NoBareEndingStep(all);
      if raw[0] == CR || raw[0] == LF {
        assert all[2..] == rest;
      } else {
        assert all[1..] == rest;
      }
    }
  }

  /** The result has no bare CR or LF, and doing it again changes nothing. */
  lemma CleanAndIdempotent(raw: Bytes)
    ensures NoBareEnding(WithCrlf(raw)) && WithCrlf(WithCrlf(raw)) == WithCrlf(raw)
  {
    FastPathAgrees(raw);
    RewrittenHasNoBareEnding(raw);
    FastPathExactly(WithCrlf(raw));
  }

  // ---- nothing else changes -----------------------------------------------------------------

  /** The lines of a text, whichever way each of them ends; the last one is what follows the last ending. */
  function Lines(raw: Bytes): (lines: seq<Bytes>)
    ensures lines != []
  {
    if raw == [] then [[]]
    else if StartsCrlf(raw) then [[]] + Lines(raw[2..])
    else if raw[0] == CR || raw[0] == LF then [[]] + Lines(raw[1..])
    else var rest := Lines(raw[1..]); [[raw[0]] + rest[0]] + rest[1..]
  }

  function JoinCrlf(lines: seq<Bytes>): Bytes
    requires lines != []
  {
    if |lines| == 1 then lines[0] else lines[0] + CRLF + JoinCrlf(lines[1..])
  }

  lemma JoinEmptyLine(rest: seq<Bytes>)
    requires rest != []
    ensures JoinCrlf([[]] + rest) == CRLF + JoinCrlf(rest)
  {
    assert ([[]] + rest)[1..] == rest;
    assert [] + CRLF == CRLF;
  }

  lemma JoinLongerLine(b: byte, rest: seq<Bytes>)
    requires rest != []
    ensures JoinCrlf([[b] + rest[0]] + rest[1..]) == [b] + JoinCrlf(rest)
  {
    var longer := [[b] + rest[0]] + rest[1..];
    assert longer[1..] == rest[1..];
    if |rest| > 1 {
      var tail := JoinCrlf(rest[1..]);
      assert ([b] + rest[0]) + CRLF + tail == [b] + (rest[0] + CRLF + tail);
    }
  }

  /** The text is its own lines joined by CRLF. */
  lemma {:induction false} RewrittenIsJoined(raw: Bytes)
    ensures Rewritten(raw) == JoinCrlf(Lines(raw))
  {
    if raw != [] {
      if StartsCrlf(raw) {
        RewrittenIsJoined(raw[2..]);
        JoinEmptyLine(Lines(raw[2..]));
      } else {
        RewrittenIsJoined(raw[1..]);
        JoinEmptyLine(Lines(raw[1..]));
        JoinLongerLine(raw[0], Lines(raw[1..]));
      }
    }
  }

  /** Line for line, the text is the same. */
  lemma {:induction false} SameLines(raw: Bytes)
    ensures Lines(Rewritten(raw)) == Lines(raw)
  {
    if raw != [] {
      var all := Rewritten(raw);
      if StartsCrlf(raw) {
        SameLines(raw[2..]);
        assert all[2..] == Rewritten(raw[2..]);
      } else {
        SameLines(raw[1..]);
        if raw[0] == CR || raw[0] == LF {
          assert all[2..] == Rewritten(raw[1..]);
        } else {
          assert all[1..] == Rewritten(raw[1..]);
        }
      }
    }
  }

  /** What is sent is the caller's text, line for line, joined by CRLF. */
  lemma SentText(raw: Bytes)
    ensures WithCrlf(raw) == JoinCrlf(Lines(raw)) && Lines(WithCrlf(raw)) == Lines(raw)
  {
    FastPathAgrees(raw);
    RewrittenIsJoined(raw);
    SameLines(raw);
  }
}
