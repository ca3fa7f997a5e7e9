/**
 The UID cursor of one IMAP folder: `_fetch_folder` of src/email/smtp_client.py with the commits and the
 two cursor writes of src/email/email_processor.py around it. A run may end at any commit.

 The server is RFC 3501: it reports UIDVALIDITY on SELECT, UIDs ascend strictly in sequence order and a
 new message gets one above all before it (section 2.3.1.1), and sequence numbers stay put while messages
 are fetched (section 7.4.1).
 */
module ImapCursor {
  import opened Common

  /** A folder on the server: the UIDs in sequence order, sequence number 1 first. */
  datatype Mailbox = Mailbox(validity: nat, uids: seq<nat>, uidNext: nat)

  /** One FETCH: the response may lack the UID, the message may not parse, the command may fail. */
  datatype Fetch = Got(named: bool, parses: bool) | Broken

  /** What befalls one run: the answer to the FETCH of each message, and how many commits it makes before it is cut off. */
  datatype Luck = Luck(tellsNext: bool, fetch: nat -> Fetch, commits: Commits)

  /** A run nothing goes wrong with: it is not cut off, and every FETCH succeeds. */
  ghost predicate Smooth(l: Luck) {
    l.commits.None? && forall i :: l.fetch(i).Got?
  }

  /** Every response carries the message's UID. */
  ghost predicate Named(l: Luck) { forall i :: l.fetch(i).Got? ==> l.fetch(i).named }

  datatype Ending = Finished | Raised | CutOff

  ghost predicate BoxOk(b: Mailbox) {
    && b.validity > 0 && b.uidNext > 0
    && (forall i :: 0 <= i < |b.uids| ==> 1 <= b.uids[i] < b.uidNext)
    && (forall i, j :: 0 <= i < j < |b.uids| ==> b.uids[i] < b.uids[j])
  }

  /** The folder after some messages more. */
  function Delivered(b: Mailbox, arriving: seq<nat>): Mailbox {
    b.(uids := b.uids + arriving, uidNext := if arriving == [] then b.uidNext else arriving[|arriving| - 1] + 1)
  }

  /** New mail comes after all that was there, and no UID given out is given out again. */
  lemma DeliveredBehind(b: Mailbox, arriving: seq<nat>)
    requires BoxOk(b) && forall i :: 0 <= i < |arriving| ==> arriving[i] >= b.uidNext
    requires forall i, j :: 0 <= i < j < |arriving| ==> arriving[i] < arriving[j]
    ensures var b' := Delivered(b, arriving);
            && BoxOk(b') && b'.validity == b.validity && b'.uids == b.uids + arriving
            && b'.uidNext >= b.uidNext && (arriving == [] ==> b' == b)
  {
  }

  /** How many messages lie at or below a UID: where SEARCH UID n:* begins. */
  function CountUpTo(uids: seq<nat>, last: nat): (n: nat)
    ensures n <= |uids|
  {
    if uids == [] || uids[0] > last then 0 else 1 + CountUpTo(uids[1..], last)
  }

  /**
   Where the sequence numbers found begin, counting from 0: at the first message above `last`, but at the
   last message if there is none above, because "n:*" always includes it.
   */
  function FoundFrom(uids: seq<nat>, last: Option<nat>): (n: nat)
    ensures n <= |uids|
  {
    if last.None? then 0
    else if CountUpTo(uids, last.value) == |uids| && uids != [] then |uids| - 1
    else CountUpTo(uids, last.value)
  }

  lemma {:induction false} CountUpToSplits(uids: seq<nat>, last: nat)
    requires forall i, j :: 0 <= i < j < |uids| ==> uids[i] < uids[j]
    ensures CountUpTo(uids, last) <= |uids|
    ensures forall i :: 0 <= i < |uids| ==> (i < CountUpTo(uids, last) <==> uids[i] <= last)
  {
    if uids != [] && uids[0] <= last {
      CountUpToSplits(uids[1..], last);
      forall i | 0 <= i < |uids| ensures i < CountUpTo(uids, last) <==> uids[i] <= last {
        assert i > 0 ==> uids[i] == uids[1..][i - 1];
      }
    }
  }

  /** UIDs start at 1 and ascend, so a sequence number never exceeds its UID. */
  lemma {:induction false} SequenceBelowUid(b: Mailbox, i: nat)
    requires BoxOk(b) && i < |b.uids|
    ensures i + 1 <= b.uids[i]
  {
    if i > 0 {
      SequenceBelowUid(b, i - 1);
    }
  }

  // ---- what is stored -----------------------------------------------------------------------

  type Place = (nat, nat)   // a message on the server, by validity and UID

  type Ids = Place -> Option<string>   // its usable Message-ID, normalised, if it has one

  /** `stable_identity`: the Message-ID, or else the place the response gave. */
  datatype Key = ById(id: string) | ByPlace(validity: nat, recorded: nat)

  function KeyOf(ids: Ids, m: Place, recorded: nat): Key {
    if ids(m).Some? then ById(ids(m).value) else ByPlace(m.0, recorded)
  }

  /** The same message to the account: the identity is meant to survive a move or a copy. */
  predicate Same(ids: Ids, m: Place, m': Place) { m == m' || (ids(m).Some? && ids(m) == ids(m')) }

  type Rows = map<Key, Place>   // the rows of `email_logs`, each with the message its content came from

  /** The upsert of `_process_emails`: an existing row keeps its content. */
  function Upserted(rows: Rows, m: Place, key: Key): Rows {
    if key in rows then rows else rows[key := m]
  }

  /** Some row has this message's content. */
  ghost predicate Held(ids: Ids, rows: Rows, m: Place) { exists key :: key in rows && Same(ids, rows[key], m) }

  datatype Entry = Entry(message: Place, key: Key)

  /** The history of all upserts. */
  type Log = seq<Entry>

  /** The rows after the first n upserts. */
  function After(rows: Rows, log: Log, n: nat): Rows
    requires n <= |log|
  {
    if n == 0 then rows else Upserted(After(rows, log, n - 1), log[n - 1].message, log[n - 1].key)
  }

  function RowsOf(log: Log): Rows { After(map[], log, |log|) }

  function Recorded(log: Log): set<Place> { set i | 0 <= i < |log| :: log[i].message }

  lemma RecordedTogether(log: Log, more: Log)
    ensures Recorded(log + more) == Recorded(log) + Recorded(more)
  {
    var whole := log + more;
    forall m | m in Recorded(log) ensures m in Recorded(whole) {
      var i :| 0 <= i < |log| && log[i].message == m;
      assert whole[i].message == m;
    }
    forall m | m in Recorded(more) ensures m in Recorded(whole) {
      var i :| 0 <= i < |more| && more[i].message == m;
      assert whole[|log| + i].message == m;
    }
  }

  lemma {:induction false} SamePrefix(rows: Rows, log: Log, more: Log, n: nat)
    requires n <= |log|
    ensures After(rows, log + more, n) == After(rows, log, n)
  {
    if n > 0 {
      SamePrefix(rows, log, more, n - 1);
    }
  }

  lemma {:induction false} Appended(rows: Rows, log: Log, more: Log, n: nat)
    requires n <= |more|
    ensures After(rows, log + more, |log| + n) == After(After(rows, log, |log|), more, n)
  {
    if n == 0 {
      SamePrefix(rows, log, more, |log|);
    } else {
      Appended(rows, log, more, n - 1);
    }
  }

  /** No recorded message is missing from the rows. */
  ghost predicate NothingLost(ids: Ids, log: Log) { forall m :: m in Recorded(log) ==> Held(ids, RowsOf(log), m) }

  /** A Message-ID, if there is one, is always the key. */
  predicate EntryOk(ids: Ids, e: Entry) {
    if ids(e.message).Some? then e.key == ById(ids(e.message).value) else e.key.ByPlace? && e.key.validity == e.message.0
  }

  ghost predicate LogOk(ids: Ids, log: Log) { forall i :: 0 <= i < |log| ==> EntryOk(ids, log[i]) }

  /** Where an identity was first recorded. */
  function FirstUnder(log: Log, key: Key): nat {
    if log == [] || log[0].key == key then 0 else 1 + FirstUnder(log[1..], key)
  }

  lemma {:induction false} FirstUnderIsFirst(log: Log, key: Key)
    ensures var f := FirstUnder(log, key);
            && f <= |log| && (f < |log| ==> log[f].key == key)
            && (forall i :: 0 <= i < |log| && log[i].key == key ==> f <= i)
  {
    if log != [] && log[0].key != key {
      FirstUnderIsFirst(log[1..], key);
      forall i | 0 <= i < |log| && log[i].key == key ensures FirstUnder(log, key) <= i {
        assert log[i] == log[1..][i - 1];
      }
    }
  }

  /** A row holds the message first recorded under its identity. */
  lemma {:induction false} FirstComeFirstKept(log: Log, key: Key, n: nat)
    requires n <= |log|
    ensures key in After(map[], log, n) <==> FirstUnder(log, key) < n
    ensures key in After(map[], log, n) ==> After(map[], log, n)[key] == log[FirstUnder(log, key)].message
  {
    FirstUnderIsFirst(log, key);
    if n > 0 {
      FirstComeFirstKept(log, key, n - 1);
    }
  }

  /** This recording found its identity free, or a row of the same message under it. */
  ghost predicate Kept(ids: Ids, log: Log, i: nat)
    requires i < |log|
  {
    var f := FirstUnder(log, log[i].key);
    f < |log| && Same(ids, log[f].message, log[i].message)
  }

  /** One recorded message is stored exactly if one of its recordings was kept. */
  lemma HeldExactly(ids: Ids, log: Log, m: Place)
    requires LogOk(ids, log) && m in Recorded(log)
    ensures Held(ids, RowsOf(log), m) <==> exists i :: 0 <= i < |log| && log[i].message == m && Kept(ids, log, i)
  {
    if i :| 0 <= i < |log| && log[i].message == m && Kept(ids, log, i) {
      FirstComeFirstKept(log, log[i].key, |log|);
      assert Same(ids, RowsOf(log)[log[i].key], m);
    }
    if Held(ids, RowsOf(log), m) {
      var key :| key in RowsOf(log) && Same(ids, RowsOf(log)[key], m);
      FirstComeFirstKept(log, key, |log|);
      FirstUnderIsFirst(log, key);
      var f := FirstUnder(log, key);
      var i :| 0 <= i < |log| && log[i].message == m;
      assert EntryOk(ids, log[f]) && EntryOk(ids, log[i]);
      assert Kept(ids, log, if log[f].message == m then f else i);
    }
  }

  /** The recorded identities of different messages are different. */
  ghost predicate DistinctIdentities(ids: Ids, log: Log) {
    forall i, j :: 0 <= i < j < |log| && log[i].key == log[j].key ==> Same(ids, log[i].message, log[j].message)
  }

  lemma DistinctIdentitiesLoseNothing(ids: Ids, log: Log)
    requires LogOk(ids, log) && DistinctIdentities(ids, log)
    ensures NothingLost(ids, log)
  {
    forall m | m in Recorded(log) ensures Held(ids, RowsOf(log), m) {
      var i :| 0 <= i < |log| && log[i].message == m;
      FirstUnderIsFirst(log, log[i].key);
      assert Kept(ids, log, i);
      HeldExactly(ids, log, m);
    }
  }

  ghost predicate RecordedOnce(log: Log) { forall i, j :: 0 <= i < j < |log| ==> log[i].message != log[j].message }

  lemma ASharedIdentityLoses(ids: Ids, log: Log, i: nat, j: nat)
    requires LogOk(ids, log) && RecordedOnce(log)
    requires i < j < |log| && log[i].key == log[j].key && !Same(ids, log[i].message, log[j].message)
    ensures log[j].message in Recorded(log) && !Held(ids, RowsOf(log), log[j].message)
  {
    assert EntryOk(ids, log[i]) && EntryOk(ids, log[j]);
    FirstUnderIsFirst(log, log[j].key);
    HeldExactly(ids, log, log[j].message);
    forall l | 0 <= l < |log| && log[l].message == log[j].message ensures !Kept(ids, log, l) {
      assert l == j;
    }
  }

  /** If no message was recorded twice, nothing is lost if and only if the identities are distinct. */
  lemma NothingLostExactly(ids: Ids, log: Log)
    requires LogOk(ids, log) && RecordedOnce(log)
    ensures NothingLost(ids, log) <==> DistinctIdentities(ids, log)
  {
    if DistinctIdentities(ids, log) {
      DistinctIdentitiesLoseNothing(ids, log);
    } else {
      var i, j :| 0 <= i < j < |log| && log[i].key == log[j].key && !Same(ids, log[i].message, log[j].message);
      ASharedIdentityLoses(ids, log, i, j);
    }
  }

  /** Every message was recorded under its own UID. */
  ghost predicate AllNamed(ids: Ids, log: Log) {
    forall i :: 0 <= i < |log| ==> log[i].key == KeyOf(ids, log[i].message, log[i].message.1)
  }

  lemma NamedResponsesLoseNothing(ids: Ids, log: Log)
    requires AllNamed(ids, log)
    ensures NothingLost(ids, log)
  {
    assert forall i :: 0 <= i < |log| ==> EntryOk(ids, log[i]);
    DistinctIdentitiesLoseNothing(ids, log);
  }

  /** One commit, by what a caller sees before it: it loses the message just when another one has its key. */
  lemma CommitKeepsExactly(ids: Ids, rows: Rows, m: Place, key: Key)
    ensures Held(ids, Upserted(rows, m, key), m) <==> Held(ids, rows, m) || key !in rows
    ensures forall other :: Held(ids, rows, other) ==> Held(ids, Upserted(rows, m, key), other)
  {
    var after := Upserted(rows, m, key);
    if key !in rows {
      assert Same(ids, after[key], m);
    }
    forall other | Held(ids, rows, other) ensures Held(ids, after, other) {
      var k :| k in rows && Same(ids, rows[k], other);
      assert Same(ids, after[k], other);
    }
  }

  /** What a run may record: a message beyond the cursor it started from, or one whose FETCH had no UID. */
  ghost predicate FreshEntry(ids: Ids, b: Mailbox, since: Option<nat>, e: Entry) {
    exists k :: 0 <= k < |b.uids| && e.message == (b.validity, b.uids[k])
                && (e.key == KeyOf(ids, e.message, k + 1)
                    || (e.key == KeyOf(ids, e.message, b.uids[k]) && (since.None? || since.value < b.uids[k])))
  }

  /**
   The account's side. The first three are the folder's row of `mail_sync_cursors`. The last two are
   history: the messages that were ever upserted, and those that could not be parsed.
   */
  datatype Db = Db(
    validity: Option<nat>,
    last: Option<nat>,
    complete: bool,
    rows: Rows,
    recorded: set<Place>,
    unparseable: set<Place>)

  predicate Dealt(db: Db, m: Place) { m in db.recorded || m in db.unparseable }

  /** Every message the cursor would skip has been dealt with. */
  ghost predicate Covers(b: Mailbox, db: Db, uid: Option<nat>) {
    uid.Some? ==>
      uid.value < b.uidNext && forall i :: 0 <= i < |b.uids| && b.uids[i] <= uid.value ==> Dealt(db, (b.validity, b.uids[i]))
  }

  /** The first n messages have been dealt with. */
  ghost predicate DealtWith(b: Mailbox, db: Db, n: nat) {
    forall i :: 0 <= i < |b.uids| && i < n ==> Dealt(db, (b.validity, b.uids[i]))
  }

  /** The rows are what the upserts made of them. */
  ghost predicate Books(ids: Ids, db: Db, log: Log) {
    db.rows == RowsOf(log) && db.recorded == Recorded(log) && LogOk(ids, log)
  }

  /** What a stretch of upserts does to the account. */
  predicate Applied(db: Db, db': Db, log: Log) {
    db'.rows == After(db.rows, log, |log|) && db'.recorded == db.recorded + Recorded(log)
  }

  lemma AppliedInTurn(db: Db, db': Db, db'': Db, log: Log, more: Log)
    requires Applied(db, db', log) && Applied(db', db'', more)
    ensures Applied(db, db'', log + more)
  {
    RecordedTogether(log, more);
    Appended(db.rows, log, more, |more|);
  }

  /**
   The persisted cursor covers nothing of the current numbering that was not dealt with.
   */
  ghost predicate DbOk(b: Mailbox, db: Db) {
    && (db.validity.Some? ==> db.validity.value <= b.validity) && (db.last.Some? ==> db.validity.Some?)
    && (db.validity == Some(b.validity) ==> Covers(b, db, db.last))
  }

  /** A message the cursor covers is stored or could not be parsed, unless every recording of it met another's row. */
  lemma CoveredAreHeldExactly(ids: Ids, b: Mailbox, db: Db, log: Log, i: nat)
    requires DbOk(b, db) && Books(ids, db, log) && db.validity == Some(b.validity)
    requires i < |b.uids| && db.last.Some? && b.uids[i] <= db.last.value && (b.validity, b.uids[i]) !in db.unparseable
    ensures var m := (b.validity, b.uids[i]);
            Held(ids, db.rows, m) <==> exists j :: 0 <= j < |log| && log[j].message == m && Kept(ids, log, j)
  {
    HeldExactly(ids, log, (b.validity, b.uids[i]));
  }

  /** Never back under one numbering; a new numbering starts over. */
  predicate Monotone(b: Mailbox, db: Db, db': Db) {
    if db.validity == Some(b.validity) && db.last.Some?
    then db'.validity == db.validity && db'.last.Some? && db'.last.value >= db.last.value
    else (db'.validity == db.validity && db'.last == db.last) || (db'.validity == Some(b.validity) && db'.last.Some?)
  }

  /** What was dealt with stays so. */
  ghost predicate Grows(b: Mailbox, db: Db, db': Db) {
    && db.recorded <= db'.recorded && db.unparseable <= db'.unparseable
    && Monotone(b, db, db')
  }

  /** At or above the n-th message. */
  predicate Reaches(b: Mailbox, uid: Option<nat>, n: nat) {
    0 < n <= |b.uids| && uid.Some? && uid.value >= b.uids[n - 1]
  }

  // ---- the cursor writes --------------------------------------------------------------------

  /** The update both cursor writes make. */
  function Advanced(db: Db, validity: nat, uid: nat): Db {
    var changed := db.validity.Some? && db.validity.value != validity;
    db.(validity := Some(validity),
        last := Some(if changed then uid else Max(if db.last.Some? then db.last.value else 0, uid)))
  }

  lemma AdvancedOk(b: Mailbox, db: Db, uid: nat)
    requires BoxOk(b) && DbOk(b, db) && Covers(b, db, Some(uid))
    ensures DbOk(b, Advanced(db, b.validity, uid)) && Monotone(b, db, Advanced(db, b.validity, uid))
    ensures Advanced(db, b.validity, uid).last.value >= uid
  {
  }

  /** The cursor may come up to a recorded UID: the real one, or the sequence number below it. */
  lemma RecordedUidIsCovered(b: Mailbox, db: Db, k: nat, recorded: nat)
    requires BoxOk(b) && k < |b.uids| && DealtWith(b, db, k + 1) && (recorded == b.uids[k] || recorded == k + 1)
    ensures Covers(b, db, Some(recorded))
  {
    forall i | 0 <= i < |b.uids| ensures i + 1 <= b.uids[i] {
      SequenceBelowUid(b, i);
    }
    assert k + 1 <= b.uids[k] < b.uidNext;
    assert forall i :: k < i < |b.uids| ==> b.uids[k] < b.uids[i];
  }

  /** A message committed under its UID, or under its sequence number if the response had no UID. */
  function Stored(ids: Ids, db: Db, m: Place, recorded: nat): Db {
    var key := KeyOf(ids, m, recorded);
    db.(rows := Upserted(db.rows, m, key), recorded := db.recorded + {m})
  }

  lemma StoredOk(ids: Ids, b: Mailbox, db: Db, k: nat, recorded: nat)
    requires BoxOk(b) && DbOk(b, db) && k < |b.uids| && DealtWith(b, db, k)
    ensures var m := (b.validity, b.uids[k]);
            var db' := Stored(ids, db, m, recorded);
            DbOk(b, db') && Grows(b, db, db') && DealtWith(b, db', k + 1) && Applied(db, db', [Entry(m, KeyOf(ids, m, recorded))])
  {
  }

  lemma PassedOverOk(b: Mailbox, db: Db, k: nat)
    requires BoxOk(b) && DbOk(b, db) && k < |b.uids| && DealtWith(b, db, k)
    ensures var db' := db.(unparseable := db.unparseable + {(b.validity, b.uids[k])});
            DbOk(b, db') && Grows(b, db, db') && DealtWith(b, db', k + 1)
  {
  }

  /** What one message of the loop records: nothing if it is replayed or does not parse. */
  function Recording(ids: Ids, b: Mailbox, k: nat, since: Option<nat>, answer: Fetch): (log: Log)
    requires k < |b.uids|
  {
    if answer.Broken? || !answer.parses || (since.Some? && answer.named && b.uids[k] <= since.value) then []
    else
      var m := (b.validity, b.uids[k]);
      [Entry(m, KeyOf(ids, m, if answer.named then b.uids[k] else k + 1))]
  }

  /** ... and what the loop does from one message up to another. */
  function Recordings(ids: Ids, b: Mailbox, from: nat, to: nat, since: Option<nat>, fetch: nat -> Fetch): Log
    requires to <= |b.uids|
  {
    if to <= from then []
    else Recordings(ids, b, from, to - 1, since, fetch) + Recording(ids, b, to - 1, since, fetch(to - 1))
  }

  lemma RecordedNext(ids: Ids, b: Mailbox, start: Db, db: Db, db': Db, from: nat, k: nat, since: Option<nat>, fetch: nat -> Fetch)
    requires from <= k < |b.uids| && Applied(start, db, Recordings(ids, b, from, k, since, fetch))
    requires Applied(db, db', Recording(ids, b, k, since, fetch(k)))
    ensures Applied(start, db', Recordings(ids, b, from, k + 1, since, fetch))
  {
    AppliedInTurn(start, db, db', Recordings(ids, b, from, k, since, fetch), Recording(ids, b, k, since, fetch(k)));
  }

  lemma {:induction false} RecordingsAreFresh(ids: Ids, b: Mailbox, from: nat, to: nat, since: Option<nat>, fetch: nat -> Fetch)
    requires to <= |b.uids|
    ensures forall e :: e in Recordings(ids, b, from, to, since, fetch) ==> EntryOk(ids, e) && FreshEntry(ids, b, since, e)
  {
    if to > from {
      RecordingsAreFresh(ids, b, from, to - 1, since, fetch);
      var next := Recording(ids, b, to - 1, since, fetch(to - 1));
      assert next != [] ==> FreshEntry(ids, b, since, next[0]);
    }
  }

  lemma {:induction false} NamedRecordings(ids: Ids, b: Mailbox, log: Log, from: nat, to: nat, since: Option<nat>, luck: Luck)
    requires to <= |b.uids| && AllNamed(ids, log) && Named(luck)
    ensures AllNamed(ids, log + Recordings(ids, b, from, to, since, luck.fetch))
  {
    if to > from {
      NamedRecordings(ids, b, log, from, to - 1, since, luck);
      var before := log + Recordings(ids, b, from, to - 1, since, luck.fetch);
      var next := Recording(ids, b, to - 1, since, luck.fetch(to - 1));
      assert forall i :: 0 <= i < |next| ==> next[i].key == KeyOf(ids, next[i].message, next[i].message.1);
      assert log + Recordings(ids, b, from, to, since, luck.fetch) == before + next;
    }
  }

  /** Writing a run up. */
  lemma WrittenUp(ids: Ids, b: Mailbox, db: Db, db': Db, log: Log, from: nat, to: nat, since: Option<nat>, luck: Luck)
    requires to <= |b.uids| && Books(ids, db, log) && Applied(db, db', Recordings(ids, b, from, to, since, luck.fetch))
    ensures Books(ids, db', log + Recordings(ids, b, from, to, since, luck.fetch))
    ensures AllNamed(ids, log) && Named(luck) ==>
              var log' := log + Recordings(ids, b, from, to, since, luck.fetch); AllNamed(ids, log') && NothingLost(ids, log')
  {
    var more := Recordings(ids, b, from, to, since, luck.fetch);
    RecordedTogether(log, more);
    Appended(map[], log, more, |more|);
    RecordingsAreFresh(ids, b, from, to, since, luck.fetch);
    if AllNamed(ids, log) && Named(luck) {
      NamedRecordings(ids, b, log, from, to, since, luck);
      NamedResponsesLoseNothing(ids, log + Recordings(ids, b, from, to, since, luck.fetch));
    }
  }

  /** Up to where a run takes the messages found. */
  function TakenTo(b: Mailbox, since: Option<nat>, limit: Option<nat>): (n: nat)
    ensures FoundFrom(b.uids, since) <= n <= |b.uids|
  {
    var from := FoundFrom(b.uids, since);
    if limit.Some? && limit.value > 0 && |b.uids| - from > limit.value then from + limit.value else |b.uids|
  }

  /** The search from a cursor finds exactly what lies above it, and always the last message; a renumbered folder is searched whole. */
  lemma SearchFindsExactly(b: Mailbox, db: Db, i: nat)
    requires BoxOk(b) && i < |b.uids|
    ensures i >= FoundFrom(b.uids, FolderSync.Since(b, db)) <==>
              db.validity != Some(b.validity) || db.last.None? || b.uids[i] > db.last.value || i == |b.uids| - 1
  {
    var since := FolderSync.Since(b, db);
    if since.Some? { CountUpToSplits(b.uids, since.value); }
  }

  /** A run takes the messages found, but no more than its limit, the oldest first. */
  lemma LimitTakesTheOldest(b: Mailbox, since: Option<nat>, limit: Option<nat>)
    ensures var found, taken := |b.uids| - FoundFrom(b.uids, since), TakenTo(b, since, limit) - FoundFrom(b.uids, since);
            && (limit.None? || limit.value == 0 ==> taken == found)
            && (limit.Some? && limit.value > 0 ==> taken == if found < limit.value then found else limit.value)
  {
  }

  /** The server has given out this UID, or may have. */
  predicate GivenOut(b: Mailbox, uid: nat) { uid < b.uidNext }

  /** SELECT is enough exactly if it says that no UID above the cursor has been given out. */
  lemma IdleExactly(b: Mailbox, db: Db, luck: Luck)
    requires BoxOk(b)
    ensures FolderSync.Idle(b, db, luck) <==>
              luck.tellsNext && db.validity == Some(b.validity) && db.last.Some? && forall uid: nat :: GivenOut(b, uid) ==> uid <= db.last.value
  {
    assert GivenOut(b, b.uidNext - 1);
  }

  /** Where the loop stands: what the run has done since `start`, and how far the messages are dealt with. */
  ghost predicate Standing(b: Mailbox, start: Db, db: Db, since: Option<nat>, highest: Option<nat>) {
    DbOk(b, db) && Grows(b, start, db) && Covers(b, db, since) && Covers(b, db, highest)
    && (db.complete ==> start.complete)
  }

  /** Growing on from where the loop stands. */
  lemma StandsOn(b: Mailbox, start: Db, db: Db, db': Db, since: Option<nat>, highest: Option<nat>)
    requires Standing(b, start, db, since, highest)
    requires DbOk(b, db') && Grows(b, db, db') && (db'.complete ==> db.complete)
    ensures Standing(b, start, db', since, highest)
  {
  }

  /** Only the cursor moved. */
  lemma CursorGrows(b: Mailbox, start: Db, db: Db, db': Db)
    requires Grows(b, start, db) && Monotone(b, db, db')
    requires db' == db.(validity := db'.validity, last := db'.last, complete := db'.complete)
    ensures Grows(b, start, db') && forall n: nat :: DealtWith(b, db', n) <==> DealtWith(b, db, n)
  {
  }

  /** What lies before the first message found has been dealt with; nothing is found only in an empty folder. */
  lemma FoundIsTheRest(b: Mailbox, db: Db, since: Option<nat>)
    requires BoxOk(b) && Covers(b, db, since)
    ensures FoundFrom(b.uids, since) <= |b.uids| && DealtWith(b, db, FoundFrom(b.uids, since))
    ensures FoundFrom(b.uids, since) == |b.uids| <==> b.uids == []
  {
    if since.Some? { CountUpToSplits(b.uids, since.value); }
  }

  // ---- the run ------------------------------------------------------------------------------

  class FolderSync {
    const ids: Ids
    var box: Mailbox   // the server's side
    var db: Db
    ghost var log: Log   // every upsert there was

    constructor (ids: Ids, box: Mailbox)
      requires BoxOk(box)
      ensures Valid() && this.ids == ids && this.box == box && db == Db(None, None, false, map[], {}, {}) && log == []
    {
      this.ids, this.box, this.db, this.log := ids, box, Db(None, None, false, map[], {}, {}), [];
    }

    ghost predicate Valid()
      reads this
    {
      BoxOk(box) && DbOk(box, db) && Books(ids, db, log)
    }

    /** What holds in the middle of a run, where the history of upserts is yet to be written up. */
    ghost predicate Sound()
      reads this
    {
      BoxOk(box) && DbOk(box, db)
    }

    // ---- the server moves on ----------------------------------------------------------------

    method Arrive(uid: nat)
      requires Valid() && uid >= box.uidNext
      modifies `box
      ensures Valid() && box == old(box).(uids := old(box).uids + [uid], uidNext := uid + 1)
    {
      box := box.(uids := box.uids + [uid], uidNext := uid + 1);
    }

    method Expunge(i: nat)
      requires Valid() && i < |box.uids|
      modifies `box
      ensures Valid() && box == old(box).(uids := old(box).uids[..i] + old(box).uids[i + 1..])
    {
      ghost var was := box;
      box := box.(uids := box.uids[..i] + box.uids[i + 1..]);
      assert forall k :: 0 <= k < |box.uids| ==> box.uids[k] == was.uids[if k < i then k else k + 1];
    }

    /** The folder is renumbered under a greater UIDVALIDITY. */
    method Renumber(b: Mailbox)
      requires Valid() && BoxOk(b) && b.validity > box.validity
      modifies `box
      ensures Valid() && box == b
    {
      box := b;
    }

    // ---- one message ------------------------------------------------------------------------

    /** `_persist_sync_cursors` for one batch: a new numbering also takes back "backfill complete". */
    method PersistBatch(uid: nat)
      requires Sound() && Covers(box, db, Some(uid))
      modifies `db
      ensures Sound() && Monotone(box, old(db), db)
      ensures db == Advanced(old(db), box.validity, uid).(complete := db.complete) && (db.complete ==> old(db).complete)
    {
      AdvancedOk(box, db, uid);
      if db.validity.Some? && db.validity.value != box.validity {
        db := db.(complete := false);
      }
      db := Advanced(db, box.validity, uid);
    }

    /** One message of the loop: fetched, parsed, and committed unless it is replayed or does not parse. */
    method FetchMessage(k: nat, since: Option<nat>, answer: Fetch, commits: Commits) returns (ending: Ending, left: Commits)
      requires Sound() && k < |box.uids| && DealtWith(box, db, k) && Covers(box, db, since)
      modifies `db
      ensures Sound() && Grows(box, old(db), db) && (db.complete ==> old(db).complete)
      ensures ending == Finished ==> DealtWith(box, db, k + 1)
      ensures Applied(old(db), db, Recording(ids, box, k, since, answer)) || (ending != Finished && Applied(old(db), db, []))
      ensures db.unparseable <= old(db).unparseable + (if answer.Got? && !answer.parses then {(box.validity, box.uids[k])} else {})
      ensures answer != Broken && commits.None? ==> ending == Finished && left.None?
    {
      left := commits;
      if answer.Broken? { return Raised, left; }
      var uid := box.uids[k];
      if since.Some? && answer.named && uid <= since.value {
        return Finished, left;   // a replayed UID
      }
      if !answer.parses {
        PassedOverOk(box, db, k);
        db := db.(unparseable := db.unparseable + {(box.validity, uid)});
        return Finished, left;
      }
      ending, left := CommitMessage(k, if answer.named then uid else k + 1, left);
    }

    /** Its commit, and then its batch's cursor. */
    method CommitMessage(k: nat, recorded: nat, commits: Commits) returns (ending: Ending, left: Commits)
      requires Sound() && k < |box.uids| && DealtWith(box, db, k) && (recorded == box.uids[k] || recorded == k + 1)
      modifies `db
      ensures Sound() && Grows(box, old(db), db) && (db.complete ==> old(db).complete) && db.unparseable == old(db).unparseable
      ensures var m := (box.validity, box.uids[k]);
              Applied(old(db), db, [Entry(m, KeyOf(ids, m, recorded))]) || (ending != Finished && Applied(old(db), db, []))
      ensures ending == Finished ==> DealtWith(box, db, k + 1)
      ensures commits.None? ==> ending == Finished && left.None?
    {
      left := commits;
      if left == Some(0) { return CutOff, left; }
      StoredOk(ids, box, db, k, recorded);
      db := Stored(ids, db, (box.validity, box.uids[k]), recorded);
      left := Spend(left);
      if left == Some(0) { return CutOff, left; }
      RecordedUidIsCovered(box, db, k, recorded);
      PersistBatch(recorded);
      return Finished, Spend(left);
    }

    // ---- one run ----------------------------------------------------------------------------

    /** The next message, beside everything the run has recorded since `start`. */
    method FetchNext(from: nat, k: nat, since: Option<nat>, luck: Luck, commits: Commits, ghost highest: Option<nat>, ghost start: Db)
      returns (ending: Ending, left: Commits, ghost done: nat)
      requires BoxOk(box) && from <= k < |box.uids| && DealtWith(box, db, k) && Standing(box, start, db, since, highest)
      requires Applied(start, db, Recordings(ids, box, from, k, since, luck.fetch))
      modifies `db
      ensures Standing(box, start, db, since, highest)
      ensures k <= done <= k + 1 && Applied(start, db, Recordings(ids, box, from, done, since, luck.fetch))
      ensures ending == Finished ==> DealtWith(box, db, k + 1) && done == k + 1
      ensures commits.None? && luck.fetch(k).Got? ==> ending == Finished && left.None?
    {
      done := k;
      ghost var was := db;
      ending, left := FetchMessage(k, since, luck.fetch(k), commits);
      StandsOn(box, start, was, db, since, highest);
      if Applied(was, db, Recording(ids, box, k, since, luck.fetch(k))) {
        RecordedNext(ids, box, start, was, db, from, k, since, luck.fetch);
        done := k + 1;
      }
    }

    /** One round of the loop: the message, then the client's own highest UID. */
    method Round(from: nat, k: nat, since: Option<nat>, luck: Luck, commits: Commits, highest: Option<nat>, ghost start: Db)
      returns (ending: Ending, left: Commits, higher: Option<nat>, ghost done: nat)
      requires BoxOk(box) && from <= k < |box.uids| && DealtWith(box, db, k) && Standing(box, start, db, since, highest)
      requires Applied(start, db, Recordings(ids, box, from, k, since, luck.fetch))
      modifies `db
      ensures Standing(box, start, db, since, higher)
      ensures k <= done <= k + 1 && Applied(start, db, Recordings(ids, box, from, done, since, luck.fetch))
      ensures ending == Finished ==> DealtWith(box, db, k + 1) && done == k + 1
      ensures commits.None? && luck.fetch(k).Got? ==>
                ending == Finished && left.None? && (luck.fetch(k).named ==> Reaches(box, higher, k + 1))
    {
      higher := highest;
      ending, left, done := FetchNext(from, k, since, luck, commits, highest, start);
      if ending == Finished && luck.fetch(k).Got? && luck.fetch(k).named {
        RecordedUidIsCovered(box, db, k, box.uids[k]);
        higher := Some(Max(if highest.Some? then highest.value else 0, box.uids[k]));
      }
    }

    /** The loop over the sequence numbers found, oldest first, and where it leaves the client's own cursor. */
    method FetchFound(from: nat, to: nat, since: Option<nat>, luck: Luck)
      returns (ending: Ending, left: Commits, highest: Option<nat>, ghost done: nat)
      requires Sound() && from <= to <= |box.uids| && DealtWith(box, db, from) && Covers(box, db, since)
      modifies `db
      ensures Standing(box, old(db), db, since, highest)
      ensures ending == Finished ==> DealtWith(box, db, to) && done == to
      ensures from <= done <= to && Applied(old(db), db, Recordings(ids, box, from, done, since, luck.fetch))
      ensures Smooth(luck) ==> ending == Finished && left.None?
      ensures Smooth(luck) && from < to && luck.fetch(to - 1).named ==> Reaches(box, highest, to)
    {
      ending, left, highest, done := Finished, luck.commits, since, from;
      for k := from to to
        invariant Standing(box, old(db), db, since, highest) && DealtWith(box, db, k) && ending == Finished
        invariant done == k && Applied(old(db), db, Recordings(ids, box, from, k, since, luck.fetch))
        invariant Smooth(luck) ==> left.None?
        invariant Smooth(luck) && from < k && luck.fetch(k - 1).named ==> Reaches(box, highest, k)
      {
        ending, left, highest, done := Round(from, k, since, luck, left, highest, old(db));
        if ending != Finished { return; }
      }
    }

    /**
     The end of a folder, `_persist_client_cursors`: the client's own cursor, if it has one for the folder,
     unless the run is cut off first.
     */
    method Conclude(highest: Option<nat>, complete: bool, left: Commits) returns (ending: Ending)
      requires Sound() && Covers(box, db, highest)
      modifies `db
      ensures Sound() && Monotone(box, old(db), db)
      ensures db == old(db).(validity := db.validity, last := db.last, complete := db.complete)
      ensures db.complete ==> old(db).complete || complete
      ensures left.None? ==> ending == Finished
      ensures left.None? && highest.Some? ==>
                db.validity == Some(box.validity) && db.last.Some? && db.last.value >= highest.value && db.complete == complete
    {
      if left == Some(0) { return CutOff; }
      if highest.Some? {
        AdvancedOk(box, db, highest.value);
        db := Advanced(db, box.validity, highest.value).(complete := complete);
      }
      ending := Finished;
    }

    /** The messages found up to one of them, and the last cursor write. */
    method FetchSome(since: Option<nat>, to: nat, complete: bool, luck: Luck) returns (ending: Ending, ghost done: nat)
      requires Sound() && Covers(box, db, since) && FoundFrom(box.uids, since) < to <= |box.uids|
      modifies `db
      ensures Sound() && Grows(box, old(db), db)
      ensures ending == Finished ==> DealtWith(box, db, to) && done == to
      ensures FoundFrom(box.uids, since) <= done <= to
      ensures Applied(old(db), db, Recordings(ids, box, FoundFrom(box.uids, since), done, since, luck.fetch))
      ensures Smooth(luck) ==> ending == Finished
      ensures Smooth(luck) && luck.fetch(to - 1).named ==> db.validity == Some(box.validity) && Reaches(box, db.last, to)
      ensures db.complete && !old(db).complete ==> complete && DealtWith(box, db, to)
    {
      FoundIsTheRest(box, db, since);
      var left, highest;
      ending, left, highest, done := FetchFound(FoundFrom(box.uids, since), to, since, luck);
      if ending == Finished {
        ghost var was := db;
        ending := Conclude(highest, complete, left);
        CursorGrows(box, old(db), was, db);
      }
    }

    /** SEARCH, the fetches and the last cursor write. `uidNext` is what SELECT said, if it did. */
    method SearchAndFetch(since: Option<nat>, uidNext: Option<nat>, wasComplete: bool, limit: Option<nat>, luck: Luck)
      returns (ending: Ending, all: bool, ghost done: nat)
      requires Sound() && Covers(box, db, since)
      requires uidNext.Some? ==> 0 < uidNext.value <= box.uidNext
      modifies `db
      ensures Sound() && Grows(box, old(db), db)
      ensures ending == Finished && all ==> DealtWith(box, db, |box.uids|)
      ensures FoundFrom(box.uids, since) <= done <= TakenTo(box, since, limit)
      ensures Applied(old(db), db, Recordings(ids, box, FoundFrom(box.uids, since), done, since, luck.fetch))
      ensures ending == Finished ==> done == TakenTo(box, since, limit)
      ensures Smooth(luck) ==> ending == Finished && (limit.None? ==> all)
      ensures Smooth(luck) && all && box.uids != [] && luck.fetch(|box.uids| - 1).named ==> AtTheEnd()
      ensures db.complete && !old(db).complete && !wasComplete ==> DealtWith(box, db, |box.uids|)
    {
      FoundIsTheRest(box, db, since);
      var count := |box.uids| - FoundFrom(box.uids, since);
      all := !(limit.Some? && limit.value > 0 && count > limit.value);
      if count == 0 {
        done := |box.uids|;
        ending := Conclude(if uidNext.Some? then Some(uidNext.value - 1) else since, true, luck.commits);
      } else {
        if !all { count := limit.value; }
        ending, done := FetchSome(since, FoundFrom(box.uids, since) + count, wasComplete || all, luck);
      }
    }

    /** The cursor stands at or above the newest message. */
    predicate AtTheEnd()
      reads this
    {
      db.validity == Some(box.validity) && Reaches(box, db.last, |box.uids|)
    }

    /** The cursor a run starts from: none, if the folder was renumbered. */
    static function Since(b: Mailbox, db: Db): Option<nat> { if db.validity == Some(b.validity) then db.last else None }

    /** SELECT already says that nothing is new. */
    static predicate Idle(b: Mailbox, db: Db, luck: Luck) {
      luck.tellsNext && Since(b, db).Some? && Since(b, db).value >= b.uidNext - 1
    }

    /** SELECT, mail arriving, SEARCH, the fetches, and the last cursor write. */
    method SelectAndFetch(arriving: seq<nat>, limit: Option<nat>, luck: Luck) returns (ending: Ending, all: bool, ghost done: nat)
      requires Valid()
      requires forall i :: 0 <= i < |arriving| ==> arriving[i] >= box.uidNext + i
      requires forall i, j :: 0 <= i < j < |arriving| ==> arriving[i] < arriving[j]
      modifies `box, `db
      ensures Sound() && Grows(box, old(db), db)
      ensures box == if Idle(old(box), old(db), luck) then old(box) else Delivered(old(box), arriving)
      ensures ending == Finished && all ==> DealtWith(box, db, |box.uids|)
      ensures FoundFrom(box.uids, Since(box, old(db))) <= done <= TakenTo(box, Since(box, old(db)), limit)
      ensures Applied(old(db), db, Recordings(ids, box, FoundFrom(box.uids, Since(box, old(db))), done, Since(box, old(db)), luck.fetch))
      ensures ending == Finished && !Idle(old(box), old(db), luck) ==> done == TakenTo(box, Since(box, old(db)), limit)
      ensures Smooth(luck) ==> ending == Finished && (limit.None? ==> all)
      ensures Smooth(luck) && all && box.uids != [] && luck.fetch(|box.uids| - 1).named ==> AtTheEnd()
      ensures db.complete && !old(db).complete ==> DealtWith(box, db, |box.uids|)
    {
      var uidNext := if luck.tellsNext then Some(box.uidNext) else None;
      var since := Since(box, db);
      var wasComplete := db.complete && !(db.validity.Some? && db.validity.value != box.validity);
      if since.Some? && uidNext.Some? && since.value >= uidNext.value - 1 {
        all, done := true, FoundFrom(box.uids, since);
        ending := Conclude(since, true, luck.commits);
      } else {
        Arrivals(arriving, since);
        ending, all, done := SearchAndFetch(since, uidNext, wasComplete, limit, luck);
      }
    }

    /**
     One run over the folder: SELECT, mail arriving, SEARCH, the fetches, and the last cursor write. `all`
     says that nothing found was left for a later run. "Backfill complete" is only ever declared when
     everything on the server has been dealt with, and a run nothing goes wrong with ends at the newest message
     if the response for that one carries its UID. As long as every response does, nothing recorded is lost.
     */
    method Run(arriving: seq<nat>, limit: Option<nat>, luck: Luck) returns (ending: Ending, all: bool, ghost done: nat)
      requires Valid()
      requires forall i :: 0 <= i < |arriving| ==> arriving[i] >= box.uidNext + i
      requires forall i, j :: 0 <= i < j < |arriving| ==> arriving[i] < arriving[j]
      modifies this
      ensures Valid() && Grows(box, old(db), db)
      ensures box == if Idle(old(box), old(db), luck) then old(box) else Delivered(old(box), arriving)
      ensures ending == Finished && all ==> DealtWith(box, db, |box.uids|)
      ensures FoundFrom(box.uids, Since(box, old(db))) <= done <= TakenTo(box, Since(box, old(db)), limit)
      ensures log == old(log) + Recordings(ids, box, FoundFrom(box.uids, Since(box, old(db))), done, Since(box, old(db)), luck.fetch)
      ensures ending == Finished && !Idle(old(box), old(db), luck) ==> done == TakenTo(box, Since(box, old(db)), limit)
      ensures AllNamed(ids, old(log)) && Named(luck) ==> AllNamed(ids, log) && NothingLost(ids, log)
      ensures Smooth(luck) ==> ending == Finished && (limit.None? ==> all)
      ensures Smooth(luck) && all && box.uids != [] && luck.fetch(|box.uids| - 1).named ==> AtTheEnd()
      ensures db.complete && !old(db).complete ==> DealtWith(box, db, |box.uids|)
    {
      ending, all, done := SelectAndFetch(arriving, limit, luck);
      ghost var since := Since(box, old(db));
      WrittenUp(ids, box, old(db), db, log, FoundFrom(box.uids, since), done, since, luck);
      log := log + Recordings(ids, box, FoundFrom(box.uids, since), done, since, luck.fetch);
    }

    /** Messages delivered while the folder is selected. */
    method Arrivals(arriving: seq<nat>, ghost since: Option<nat>)
      requires Valid()
      requires forall i :: 0 <= i < |arriving| ==> arriving[i] >= box.uidNext + i
      requires forall i, j :: 0 <= i < j < |arriving| ==> arriving[i] < arriving[j]
      modifies `box
      ensures Valid() && box == Delivered(old(box), arriving) && old(box).uidNext <= box.uidNext
      ensures Covers(old(box), db, since) ==> Covers(box, db, since)
    {
      ghost var was := box;
      for i := 0 to |arriving|
        invariant Valid() && box == Delivered(was, arriving[..i]) && was.uidNext <= box.uidNext
        invariant Covers(was, db, since) ==> Covers(box, db, since)
        invariant forall k :: i <= k < |arriving| ==> arriving[k] >= box.uidNext
      {
        Arrive(arriving[i]);
      }
    }
  }

  /** UIDs 2, 5 and 9, and the second response carries no UID. */
  lemma ThreeRecordings(ids: Ids, b: Mailbox, fetch: nat -> Fetch)
    requires b == Mailbox(7, [2, 5, 9], 10) && forall m :: ids(m).None?
    requires fetch(0) == fetch(2) == Got(true, true) && fetch(1) == Got(false, true)
    ensures Recordings(ids, b, 0, 3, None, fetch) == [Entry((7, 2), ByPlace(7, 2)), Entry((7, 5), ByPlace(7, 2)), Entry((7, 9), ByPlace(7, 9))]
  {
    var first, second := Recordings(ids, b, 0, 1, None, fetch), Recordings(ids, b, 0, 2, None, fetch);
    assert first == [Entry((7, 2), ByPlace(7, 2))];
    assert second == first + [Entry((7, 5), ByPlace(7, 2))];
  }

  lemma TwoRows()
    ensures RowsOf([Entry((7, 2), ByPlace(7, 2)), Entry((7, 5), ByPlace(7, 2)), Entry((7, 9), ByPlace(7, 9))])
            == map[ByPlace(7, 2) := (7, 2), ByPlace(7, 9) := (7, 9)]
  {
    var log := [Entry((7, 2), ByPlace(7, 2)), Entry((7, 5), ByPlace(7, 2)), Entry((7, 9), ByPlace(7, 9))];
    assert After(map[], log, 1) == map[ByPlace(7, 2) := (7, 2)];
    assert After(map[], log, 2) == map[ByPlace(7, 2) := (7, 2)];
  }

  /** A whole run over them. */
  method AnUnnamedResponse() returns (f: FolderSync)
    ensures f.Valid() && (forall m :: f.ids(m).None?) && f.box == Mailbox(7, [2, 5, 9], 10)
    ensures f.log == [Entry((7, 2), ByPlace(7, 2)), Entry((7, 5), ByPlace(7, 2)), Entry((7, 9), ByPlace(7, 9))]
    ensures f.AtTheEnd() && DealtWith(f.box, f.db, 3)
  {
    f := new FolderSync(m => None, Mailbox(7, [2, 5, 9], 10));
    assert f.box.uids + [] == f.box.uids;
    var luck := Luck(true, i => Got(i != 1, true), None);
    ThreeRecordings(f.ids, f.box, luck.fetch);
    var ending, all, done := f.Run([], None, luck);
    assert done == 3;
    assert [] + Recordings(f.ids, f.box, 0, 3, None, luck.fetch) == Recordings(f.ids, f.box, 0, 3, None, luck.fetch);
  }

  /**
   A message is lost: it is recorded under its sequence number 2, which is the identity of the message
   before it. The cursor ends above it.
   */
  method AMessageIsLost() returns (f: FolderSync)
    ensures f.Valid() && f.box == Mailbox(7, [2, 5, 9], 10) && f.db.validity == Some(7) && f.db.last == Some(9)
    ensures DealtWith(f.box, f.db, 3) && f.db.rows == map[ByPlace(7, 2) := (7, 2), ByPlace(7, 9) := (7, 9)]
    ensures !Held(f.ids, f.db.rows, (7, 5))
  {
    f := AnUnnamedResponse();
    TwoRows();
  }
}
