/**
 The reconciler `apply_folder_snapshots` of src/email/email_processor.py: one census of the folders retires
 placements and tombstones the messages that lost every placement they had.
 */
module FolderSnapshots {
  import opened Common

  type PlacementId = nat
  type MsgId = nat
  type Folder = nat    // folders numbered in order of their names
  type Flags = string

  datatype Placement = Placement(msg: MsgId, folder: Folder, uid: Option<nat>, validity: Option<nat>)

  datatype Log = Log(flags: Option<Flags>, deleted: bool)

  /** What the census saw of one folder. */
  datatype Snapshot = Snapshot(validity: Option<nat>, uids: set<nat>, flags: map<nat, Flags>)

  type Census = map<Folder, Snapshot>

  type Placements = map<PlacementId, Placement>

  // ---- what the census says of one placement ------------------------------------------------

  predicate Unseen(p: Placement, c: Census) { p.folder !in c }

  /** In a folder the census saw, under its current numbering or an unrecorded one. */
  predicate Current(p: Placement, c: Census) {
    p.folder in c && (p.validity.None? || p.validity == c[p.folder].validity)
  }

  predicate Stale(p: Placement, c: Census) { !Unseen(p, c) && !Current(p, c) }

  predicate Present(p: Placement, c: Census) {
    Current(p, c) && p.uid.Some? && p.uid.value in c[p.folder].uids
  }

  predicate Absent(p: Placement, c: Census) { Current(p, c) && !Present(p, c) }

  /** The message can be found without the old numbering. */
  predicate Addressable(ps: Placements, c: Census, m: MsgId) {
    exists id :: id in ps && ps[id].msg == m && !Stale(ps[id], c)
  }

  predicate Retired(ps: Placements, c: Census, id: PlacementId)
    requires id in ps
  {
    Absent(ps[id], c) || (Stale(ps[id], c) && Addressable(ps, c, ps[id].msg))
  }

  function Candidates(ps: Placements): set<MsgId> {
    set id | id in ps :: ps[id].msg
  }

  function Kept(ps: Placements, c: Census): Placements {
    map id | id in ps && !Retired(ps, c, id) :: ps[id]
  }

  /** The messages a pass finds without any placement left. */
  function Doomed(ps: Placements, c: Census): set<MsgId> {
    Candidates(ps) - Candidates(Kept(ps, c))
  }

  function PassLimit(candidates: nat): nat {
    Max(20, Min(200, candidates / 50))
  }

  predicate Refused(ps: Placements, c: Census) {
    |Doomed(ps, c)| > PassLimit(|Candidates(ps)|)
  }

  // ---- flags --------------------------------------------------------------------------------

  /** A placement whose flags the census reported. */
  predicate Sighting(p: Placement, c: Census) {
    Present(p, c) && p.uid.value in c[p.folder].flags
  }

  /** The live folder before an excluded one, then the first by name. */
  predicate Before(excluded: Folder -> bool, a: Folder, b: Folder) {
    (!excluded(a) && excluded(b)) || (excluded(a) == excluded(b) && a < b)
  }

  /** The sighting whose flags a message takes. */
  predicate Best(ps: Placements, c: Census, excluded: Folder -> bool, id: PlacementId)
    requires id in ps
  {
    && Sighting(ps[id], c)
    && forall k :: k in ps && ps[k].msg == ps[id].msg && Sighting(ps[k], c) ==> !Before(excluded, ps[k].folder, ps[id].folder)
  }

  function SeenFlags(p: Placement, c: Census): Flags
    requires Sighting(p, c)
  {
    c[p.folder].flags[p.uid.value]
  }

  /** The unique constraint on (message, folder). */
  ghost predicate OnePerFolder(ps: Placements) {
    forall i, j ::
      (i in ps && j in ps && ps[i].msg == ps[j].msg && ps[i].folder == ps[j].folder) ==> i == j
  }

  /** The flags a message has after the pass: those of its best sighting, if the census reported any. */
  ghost function FlagsAfter(ps: Placements, c: Census, excluded: Folder -> bool, m: MsgId, was: Option<Flags>): Option<Flags> {
    if exists id :: id in ps && ps[id].msg == m && Best(ps, c, excluded, id)
    then
      var id :| id in ps && ps[id].msg == m && Best(ps, c, excluded, id);
      Some(SeenFlags(ps[id], c))
    else was
  }

  ghost function Flagged(ps: Placements, logs: map<MsgId, Log>, c: Census, excluded: Folder -> bool): map<MsgId, Log> {
    map m | m in logs :: logs[m].(flags := FlagsAfter(ps, c, excluded, m, logs[m].flags))
  }

  function Tombstoned(logs: map<MsgId, Log>, dead: set<MsgId>): map<MsgId, Log> {
    map m | m in logs :: if m in dead then logs[m].(deleted := true) else logs[m]
  }

  /** The messages table after the pass. */
  ghost function LogsAfter(ps: Placements, logs: map<MsgId, Log>, c: Census, excluded: Folder -> bool): map<MsgId, Log> {
    Tombstoned(Flagged(ps, logs, c, excluded), if Refused(ps, c) then {} else Doomed(ps, c))
  }

  /** For each message that was sighted, one of its best sightings. */
  ghost predicate Observes(ps: Placements, c: Census, excluded: Folder -> bool, observed: map<MsgId, PlacementId>) {
    && (forall m :: m in observed ==> observed[m] in ps && ps[observed[m]].msg == m && Best(ps, c, excluded, observed[m]))
    && (forall id :: id in ps && Sighting(ps[id], c) ==> ps[id].msg in observed)
  }

  /** Whichever best sighting was picked, its flags are the message's flags: there is only one. */
  lemma ObservedFlags(ps: Placements, c: Census, excluded: Folder -> bool, observed: map<MsgId, PlacementId>, m: MsgId, was: Option<Flags>)
    requires OnePerFolder(ps) && Observes(ps, c, excluded, observed)
    ensures m in observed ==> FlagsAfter(ps, c, excluded, m, was) == Some(SeenFlags(ps[observed[m]], c))
    ensures m !in observed ==> FlagsAfter(ps, c, excluded, m, was) == was
  {
    if m in observed {
      forall k | k in ps && ps[k].msg == m && Best(ps, c, excluded, k) ensures k == observed[m] {
        assert !Before(excluded, ps[k].folder, ps[observed[m]].folder) && !Before(excluded, ps[observed[m]].folder, ps[k].folder);
      }
    }
  }

  datatype Verdict = Leave | Retire | Sight

  /** The branches of the second loop, for one row. */
  function Judged(p: Placement, c: Census, addressable: set<MsgId>): Verdict {
    if p.folder !in c then Leave
    else if p.validity.Some? && p.validity != c[p.folder].validity then (if p.msg in addressable then Retire else Leave)
    else if p.uid.None? || p.uid.value !in c[p.folder].uids then Retire
    else if p.uid.value !in c[p.folder].flags then Leave
    else Sight
  }

  ghost function Verdicts(ps: Placements, c: Census, addressable: set<MsgId>): map<PlacementId, Verdict> {
    map id | id in ps :: Judged(ps[id], c, addressable)
  }

  lemma JudgedMeans(ps: Placements, c: Census, addressable: set<MsgId>, id: PlacementId)
    requires id in ps && forall m :: m in addressable <==> Addressable(ps, c, m)
    ensures Judged(ps[id], c, addressable).Retire? <==> Retired(ps, c, id)
    ensures Judged(ps[id], c, addressable).Sight? <==> Sighting(ps[id], c)
  {
  }

  /** What the second loop has gathered from the rows it has seen. */
  ghost predicate Gathered(ps: Placements, verdicts: map<PlacementId, Verdict>, excluded: Folder -> bool, rows: set<PlacementId>,
                           retired: set<PlacementId>, observed: map<MsgId, PlacementId>)
    requires verdicts.Keys == ps.Keys && rows <= ps.Keys
  {
    && (forall id :: id in retired <==> id in rows && verdicts[id].Retire?)
    && (forall m :: m in observed ==> observed[m] in ps && ps[observed[m]].msg == m && verdicts[observed[m]].Sight?)
    && (forall k :: k in rows && verdicts[k].Sight? ==>
          ps[k].msg in observed && !Before(excluded, ps[k].folder, ps[observed[ps[k].msg]].folder))
  }

  lemma BeforeIsTransitive(excluded: Folder -> bool, a: Folder, b: Folder, d: Folder)
    ensures Before(excluded, a, b) && Before(excluded, b, d) ==> Before(excluded, a, d)
  {
  }

  /** One more row, by its verdict. */
  lemma GatherMore(ps: Placements, verdicts: map<PlacementId, Verdict>, excluded: Folder -> bool, rows: set<PlacementId>,
                   retired: set<PlacementId>, observed: map<MsgId, PlacementId>, id: PlacementId)
    requires verdicts.Keys == ps.Keys && rows <= ps.Keys && id in ps
    requires Gathered(ps, verdicts, excluded, rows, retired, observed)
    ensures verdicts[id].Leave? ==> Gathered(ps, verdicts, excluded, rows + {id}, retired, observed)
    ensures verdicts[id].Retire? ==> Gathered(ps, verdicts, excluded, rows + {id}, retired + {id}, observed)
    ensures verdicts[id].Sight? ==>
              Gathered(ps, verdicts, excluded, rows + {id}, retired,
                       if ps[id].msg !in observed || Before(excluded, ps[id].folder, ps[observed[ps[id].msg]].folder)
                       then observed[ps[id].msg := id] else observed)
  {
    var m := ps[id].msg;
    if verdicts[id].Sight? && m in observed {
      forall k | k in rows && verdicts[k].Sight? && ps[k].msg == m
        ensures Before(excluded, ps[id].folder, ps[observed[m]].folder) ==> !Before(excluded, ps[k].folder, ps[id].folder)
      {
        BeforeIsTransitive(excluded, ps[k].folder, ps[id].folder, ps[observed[m]].folder);
      }
    }
  }

  lemma GatheredAll(ps: Placements, c: Census, addressable: set<MsgId>, excluded: Folder -> bool,
                    retired: set<PlacementId>, observed: map<MsgId, PlacementId>)
    requires forall m :: m in addressable <==> Addressable(ps, c, m)
    requires Gathered(ps, Verdicts(ps, c, addressable), excluded, ps.Keys, retired, observed)
    ensures forall id :: id in retired <==> id in ps && Retired(ps, c, id)
    ensures Observes(ps, c, excluded, observed)
  {
    forall id | id in ps
      ensures Verdicts(ps, c, addressable)[id].Retire? <==> Retired(ps, c, id)
      ensures Verdicts(ps, c, addressable)[id].Sight? <==> Sighting(ps[id], c)
    {
      JudgedMeans(ps, c, addressable, id);
    }
  }

  /** The flag updates as the loop's dictionary describes them. */
  function FlaggedBy(ps: Placements, logs: map<MsgId, Log>, c: Census, observed: map<MsgId, PlacementId>): map<MsgId, Log>
    requires forall m :: m in observed ==> observed[m] in ps && Sighting(ps[observed[m]], c)
  {
    map m | m in logs :: if m in observed then logs[m].(flags := Some(SeenFlags(ps[observed[m]], c))) else logs[m]
  }

  lemma FlaggedAlike(ps: Placements, logs: map<MsgId, Log>, c: Census, excluded: Folder -> bool, observed: map<MsgId, PlacementId>)
    requires OnePerFolder(ps) && Observes(ps, c, excluded, observed)
    ensures forall m :: m in observed ==> observed[m] in ps && Sighting(ps[observed[m]], c)
    ensures FlaggedBy(ps, logs, c, observed) == Flagged(ps, logs, c, excluded)
  {
    forall m | m in logs
      ensures m in observed ==> FlagsAfter(ps, c, excluded, m, logs[m].flags) == Some(SeenFlags(ps[observed[m]], c))
      ensures m !in observed ==> FlagsAfter(ps, c, excluded, m, logs[m].flags) == logs[m].flags
    {
      ObservedFlags(ps, c, excluded, observed, m, logs[m].flags);
    }
  }

  // ---- the pass -----------------------------------------------------------------------------

  class Account {
    const excluded: Folder -> bool
    var placements: Placements
    var logs: map<MsgId, Log>

    /** The foreign key, and one placement of a message per folder. */
    ghost predicate Valid()
      reads this
    {
      && (forall id :: id in placements ==> placements[id].msg in logs)
      && OnePerFolder(placements)
    }

    /** The rows of the join, in whatever order the database gives them. */
    method Rows() returns (rows: seq<PlacementId>)
      ensures forall id :: id in rows <==> id in placements
    {
      rows := [];
      var rest := placements.Keys;
      while rest != {}
        invariant rest <= placements.Keys && forall id :: id in rows <==> id in placements && id !in rest
        decreases rest
      {
        var id :| id in rest;
        rows, rest := rows + [id], rest - {id};
      }
    }

    method FindAddressable(rows: seq<PlacementId>, c: Census) returns (addressable: set<MsgId>)
      requires forall id :: id in rows <==> id in placements
      ensures forall m :: m in addressable <==> Addressable(placements, c, m)
    {
      addressable := {};
      for i := 0 to |rows|
        invariant forall m :: m in addressable <==> exists k :: k in rows[..i] && placements[k].msg == m && !Stale(placements[k], c)
      {
        assert rows[i] in rows;
        assert forall k :: k in rows[..i + 1] <==> k in rows[..i] || k == rows[i];
        if Unseen(placements[rows[i]], c) || Current(placements[rows[i]], c) {
          addressable := addressable + {placements[rows[i]].msg};
        }
      }
      assert rows[..|rows|] == rows;
      assert forall m :: m in addressable ==> Addressable(placements, c, m);
    }

    /** The second loop: what is retired, and per message the placement whose flags it takes. */
    method Judge(rows: seq<PlacementId>, c: Census, addressable: set<MsgId>)
      returns (retired: set<PlacementId>, observed: map<MsgId, PlacementId>)
      requires forall id :: id in rows <==> id in placements
      requires forall m :: m in addressable <==> Addressable(placements, c, m)
      ensures forall id :: id in retired <==> id in placements && Retired(placements, c, id)
      ensures Observes(placements, c, excluded, observed)
    {
      retired, observed := {}, map[];
      ghost var verdicts := Verdicts(placements, c, addressable);
      ghost var seen: set<PlacementId> := {};
      for i := 0 to |rows|
        invariant seen <= placements.Keys && forall id :: id in seen <==> id in rows[..i]
        invariant Gathered(placements, verdicts, excluded, seen, retired, observed)
      {
        assert rows[i] in rows && rows[..i + 1] == rows[..i] + [rows[i]];
        var p := placements[rows[i]];
        GatherMore(placements, verdicts, excluded, seen, retired, observed, rows[i]);
        match Judged(p, c, addressable) {
          case Leave =>
          case Retire => retired := retired + {rows[i]};
          case Sight =>
            if p.msg !in observed || Before(excluded, p.folder, placements[observed[p.msg]].folder) {
              observed := observed[p.msg := rows[i]];
            }
        }
        seen := seen + {rows[i]};
      }
      assert rows[..|rows|] == rows;
      assert seen == placements.Keys;
      GatheredAll(placements, c, addressable, excluded, retired, observed);
    }

    /** The flag updates, one statement per distinct flag string. */
    method UpdateFlags(c: Census, observed: map<MsgId, PlacementId>)
      requires OnePerFolder(placements) && Observes(placements, c, excluded, observed)
      modifies `logs
      ensures logs == Flagged(placements, old(logs), c, excluded)
    {
      FlaggedAlike(placements, logs, c, excluded, observed);
      logs := FlaggedBy(placements, logs, c, observed);
    }

    /** The last part: who lost every placement, and whether to believe it. */
    method Tombstone(candidates: set<MsgId>)
      modifies `logs
      ensures var doomed := candidates - Candidates(placements);
              logs == Tombstoned(old(logs), if |doomed| > PassLimit(|candidates|) then {} else doomed)
    {
      assert logs == Tombstoned(logs, {});
      if candidates == {} {
        assert |candidates - Candidates(placements)| == 0;
        return;
      }
      var survivors := set id | id in placements :: placements[id].msg;
      var doomed := candidates - survivors;
      if |doomed| > Max(20, Min(200, |candidates| / 50)) {
        return;
      }
      logs := map m | m in logs :: if m in doomed then logs[m].(deleted := true) else logs[m];
    }

    /** Everything up to the flush: placements retired, flags updated. */
    method RetireAndFlag(c: Census) returns (candidates: set<MsgId>)
      requires Valid()
      modifies this
      ensures candidates == Candidates(old(placements))
      ensures placements == Kept(old(placements), c)
      ensures logs == Flagged(old(placements), old(logs), c, excluded)
    {
      ghost var was := placements;
      var rows := Rows();
      candidates := set id | id in rows :: placements[id].msg;
      assert candidates == Candidates(was);
      var addressable := FindAddressable(rows, c);
      var retired, observed := Judge(rows, c, addressable);
      UpdateFlags(c, observed);
      RetiredGone(was, c, retired);
      placements := placements - retired;
    }

    /** `apply_folder_snapshots`; the caller commits, so a refusal keeps what was already retired. */
    method Apply(c: Census)
      requires Valid()
      modifies this
      ensures Valid()
      ensures placements == Kept(old(placements), c)
      ensures logs == LogsAfter(old(placements), old(logs), c, excluded)
    {
      ghost var was, wasLogs := placements, logs;
      var candidates := RetireAndFlag(c);
      Tombstone(candidates);
      KeepsForeignKey(was, wasLogs, c, excluded);
    }
  }

  lemma RetiredGone(ps: Placements, c: Census, retired: set<PlacementId>)
    requires forall id :: id in retired <==> id in ps && Retired(ps, c, id)
    ensures ps - retired == Kept(ps, c)
  {
  }

  lemma KeepsForeignKey(ps: Placements, logs: map<MsgId, Log>, c: Census, excluded: Folder -> bool)
    requires OnePerFolder(ps) && forall id :: id in ps ==> ps[id].msg in logs
    ensures OnePerFolder(Kept(ps, c))
    ensures forall id :: id in Kept(ps, c) ==> Kept(ps, c)[id].msg in LogsAfter(ps, logs, c, excluded)
  {
  }

  // ---- what a pass means --------------------------------------------------------------------

  /** Tombstoned by this pass. */
  predicate NewlyDead(logs: map<MsgId, Log>, logs': map<MsgId, Log>, m: MsgId) {
    m in logs && m in logs' && !logs[m].deleted && logs'[m].deleted
  }

  /**
   A message is tombstoned exactly when the pass is not refused and every placement it had, of which there
   was at least one, is either absent under current numbering or stale.
   */
  lemma TombstonedExactly(ps: Placements, logs: map<MsgId, Log>, c: Census, excluded: Folder -> bool, m: MsgId)
    requires m in logs && !logs[m].deleted
    ensures NewlyDead(logs, LogsAfter(ps, logs, c, excluded), m) <==>
              && !Refused(ps, c)
              && (exists id :: id in ps && ps[id].msg == m && Absent(ps[id], c))
              && (forall id :: id in ps && ps[id].msg == m ==> Absent(ps[id], c) || Stale(ps[id], c))
  {
    DoomedExactly(ps, c, m);
  }

  /** To be doomed takes an absence: staleness alone never unplaces a message. */
  lemma DoomedExactly(ps: Placements, c: Census, m: MsgId)
    ensures m in Doomed(ps, c) <==>
              && (exists id :: id in ps && ps[id].msg == m && Absent(ps[id], c))
              && (forall id :: id in ps && ps[id].msg == m ==> Absent(ps[id], c) || Stale(ps[id], c))
  {
    if m in Doomed(ps, c) {
      forall id | id in ps && ps[id].msg == m ensures Retired(ps, c, id) {
        assert id !in Kept(ps, c);
      }
      var one :| one in ps && ps[one].msg == m;
      if !Absent(ps[one], c) {
        var other :| other in ps && ps[other].msg == m && !Stale(ps[other], c);
        assert Absent(ps[other], c);
      }
    }
    if (exists id :: id in ps && ps[id].msg == m && Absent(ps[id], c))
       && (forall id :: id in ps && ps[id].msg == m ==> Absent(ps[id], c) || Stale(ps[id], c))
    {
      var one :| one in ps && ps[one].msg == m && Absent(ps[one], c);
      forall id | id in ps && ps[id].msg == m ensures id !in Kept(ps, c) {
        assert Addressable(ps, c, m);
      }
    }
  }

  /** Seen nowhere, filed in an unseen folder, or known only by old numbers: never tombstoned. */
  lemma SparedMessages(ps: Placements, logs: map<MsgId, Log>, c: Census, excluded: Folder -> bool, m: MsgId)
    requires (forall id :: id in ps && ps[id].msg == m ==> Stale(ps[id], c))
             || (exists id :: id in ps && ps[id].msg == m && (Unseen(ps[id], c) || Present(ps[id], c)))
    ensures !NewlyDead(logs, LogsAfter(ps, logs, c, excluded), m)
  {
    if m in logs && !logs[m].deleted {
      TombstonedExactly(ps, logs, c, excluded, m);
    }
  }

  /** One pass tombstones at most max(20, min(200, n div 50)) of n placed messages. */
  lemma BoundedLoss(ps: Placements, logs: map<MsgId, Log>, c: Census, excluded: Folder -> bool)
    ensures var dead := set m | m in logs && NewlyDead(logs, LogsAfter(ps, logs, c, excluded), m);
            |dead| <= Max(20, Min(200, |Candidates(ps)| / 50))
  {
    var dead := set m | m in logs && NewlyDead(logs, LogsAfter(ps, logs, c, excluded), m);
    if Refused(ps, c) {
      assert dead == {};
    } else {
      forall m | m in dead ensures m in Doomed(ps, c) {
      }
      SubsetSize(dead, Doomed(ps, c));
    }
  }

  /** A pass is refused exactly if it would tombstone more than twenty messages, and more than a fiftieth of them or two hundred. */
  lemma RefusedExactly(ps: Placements, c: Census)
    ensures var lost, placed := |Doomed(ps, c)|, |set id | id in ps :: ps[id].msg|;
            Refused(ps, c) <==> lost > 20 && (lost > 200 || 50 * lost > placed)
  {
  }

  /** A placement whose flags count for more than another's: a live folder's more than an excluded one's, then the first by name. */
  predicate Outranks(p: Placement, q: Placement, excluded: Folder -> bool) {
    if excluded(p.folder) then excluded(q.folder) && p.folder < q.folder else excluded(q.folder) || p.folder < q.folder
  }

  /** After a pass a message has the flags the census reported for it in its live folder of the first name, or the first excluded one if there is none. */
  lemma LiveFolderDecides(ps: Placements, logs: map<MsgId, Log>, c: Census, excluded: Folder -> bool, id: PlacementId)
    requires OnePerFolder(ps) && id in ps && ps[id].msg in logs && Sighting(ps[id], c)
    requires forall k :: k in ps && k != id && ps[k].msg == ps[id].msg && Sighting(ps[k], c) ==> Outranks(ps[id], ps[k], excluded)
    ensures LogsAfter(ps, logs, c, excluded)[ps[id].msg].flags == Some(c[ps[id].folder].flags[ps[id].uid.value])
  {
    assert Best(ps, c, excluded, id);
    assert forall k :: k in ps && ps[k].msg == ps[id].msg && Best(ps, c, excluded, k) ==> k == id;
  }

  // ---- the same census twice ----------------------------------------------------------------

  /** What a pass keeps, the same census keeps again. */
  lemma KeptStays(ps: Placements, c: Census)
    ensures Kept(Kept(ps, c), c) == Kept(ps, c) && Doomed(Kept(ps, c), c) == {}
  {
    var once := Kept(ps, c);
    forall id | id in once ensures !Retired(once, c, id) {
      assert !Retired(ps, c, id);
      if Addressable(once, c, once[id].msg) {
        var k :| k in once && once[k].msg == once[id].msg && !Stale(once[k], c);
        assert k in ps && ps[k] == once[k];
        assert Addressable(ps, c, ps[id].msg);
      }
    }
    assert Kept(once, c) == once;
  }

  /** A retired placement is no sighting, so the best sightings are the same ones. */
  lemma FlagsAgain(ps: Placements, c: Census, excluded: Folder -> bool, m: MsgId, was: Option<Flags>)
    requires OnePerFolder(ps)
    ensures FlagsAfter(Kept(ps, c), c, excluded, m, FlagsAfter(ps, c, excluded, m, was)) == FlagsAfter(ps, c, excluded, m, was)
  {
    var once := Kept(ps, c);
    forall id | id in ps && Sighting(ps[id], c) ensures id in once {
      assert !Retired(ps, c, id);
    }
    forall id | id in once && once[id].msg == m && Best(once, c, excluded, id) ensures id in ps && Best(ps, c, excluded, id) {
    }
    forall i, j | i in ps && j in ps && ps[i].msg == m && ps[j].msg == m && Best(ps, c, excluded, i) && Best(ps, c, excluded, j)
      ensures i == j
    {
    }
  }

  lemma FlaggedAgain(ps: Placements, logs: map<MsgId, Log>, once: map<MsgId, Log>, c: Census, excluded: Folder -> bool)
    requires OnePerFolder(ps) && once.Keys == logs.Keys
    requires forall m :: m in once ==> once[m].flags == FlagsAfter(ps, c, excluded, m, logs[m].flags)
    ensures Flagged(Kept(ps, c), once, c, excluded) == once
  {
    forall m | m in once ensures FlagsAfter(Kept(ps, c), c, excluded, m, once[m].flags) == once[m].flags {
      FlagsAgain(ps, c, excluded, m, logs[m].flags);
    }
  }

  lemma NobodyDead(logs: map<MsgId, Log>)
    ensures Tombstoned(logs, {}) == logs
  {
  }

  lemma FlagsOfLogsAfter(ps: Placements, logs: map<MsgId, Log>, c: Census, excluded: Folder -> bool)
    ensures LogsAfter(ps, logs, c, excluded).Keys == logs.Keys
    ensures forall m :: m in logs ==> LogsAfter(ps, logs, c, excluded)[m].flags == FlagsAfter(ps, c, excluded, m, logs[m].flags)
  {
  }

  /** Applying the same census a second time changes nothing. */
  lemma SameCensusTwice(ps: Placements, logs: map<MsgId, Log>, c: Census, excluded: Folder -> bool)
    requires OnePerFolder(ps)
    ensures Kept(Kept(ps, c), c) == Kept(ps, c)
    ensures LogsAfter(Kept(ps, c), LogsAfter(ps, logs, c, excluded), c, excluded) == LogsAfter(ps, logs, c, excluded)
  {
    var once := LogsAfter(ps, logs, c, excluded);
    KeptStays(ps, c);
    FlagsOfLogsAfter(ps, logs, c, excluded);
    FlaggedAgain(ps, logs, once, c, excluded);
    NobodyDead(once);
  }

  // ---- what a refusal leaves ----------------------------------------------------------------

  /** A message without a placement is no pass's business. */
  lemma UnplacedIsUntouched(ps: Placements, logs: map<MsgId, Log>, c: Census, excluded: Folder -> bool, m: MsgId)
    requires m in logs && forall id :: id in ps ==> ps[id].msg != m
    ensures var logs' := LogsAfter(ps, logs, c, excluded); m in logs' && logs'[m] == logs[m]
  {
    assert m !in Doomed(ps, c);
    FlagsOfLogsAfter(ps, logs, c, excluded);
  }

  /** The passes of a sequence of censuses, with nothing else filing mail in between. */
  ghost function Passes(ps: Placements, logs: map<MsgId, Log>, cs: seq<Census>, excluded: Folder -> bool): (Placements, map<MsgId, Log>) {
    if cs == [] then (ps, logs)
    else Passes(Kept(ps, cs[0]), LogsAfter(ps, logs, cs[0], excluded), cs[1..], excluded)
  }

  lemma {:induction false} UnplacedStays(ps: Placements, logs: map<MsgId, Log>, cs: seq<Census>, excluded: Folder -> bool, m: MsgId)
    requires m in logs && forall id :: id in ps ==> ps[id].msg != m
    ensures var after := Passes(ps, logs, cs, excluded); m in after.1 && after.1[m] == logs[m] && m !in Candidates(after.0)
  {
    if cs != [] {
      UnplacedIsUntouched(ps, logs, cs[0], excluded, m);
      UnplacedStays(Kept(ps, cs[0]), LogsAfter(ps, logs, cs[0], excluded), cs[1..], excluded, m);
    }
  }

  /**
   The retirements of a refused pass stand, so the doomed messages lose their placements without being
   tombstoned, and no later pass ever reconsiders them: the refusal costs more than one stale cycle.
   */
  lemma {:induction false} RefusalStrands(ps: Placements, logs: map<MsgId, Log>, c: Census, cs: seq<Census>, excluded: Folder -> bool, m: MsgId)
    requires Refused(ps, c) && m in Doomed(ps, c) && m in logs
    ensures forall id :: id in Kept(ps, c) ==> Kept(ps, c)[id].msg != m
    ensures var after := Passes(ps, logs, [c] + cs, excluded).1; m in after && after[m].deleted == logs[m].deleted
  {
    var ps', logs' := Kept(ps, c), LogsAfter(ps, logs, c, excluded);
    assert m !in Candidates(ps');
    forall id | id in ps' ensures ps'[id].msg != m {
      assert ps'[id].msg in Candidates(ps');
    }
    assert ([c] + cs)[0] == c && ([c] + cs)[1..] == cs;
    UnplacedStays(ps', logs', cs, excluded, m);
  }

  /** Not deleted, and no placement left by which a pass could delete it. */
  predicate Stranded(ps: Placements, logs: map<MsgId, Log>, m: MsgId) {
    m in logs && !logs[m].deleted && m !in Candidates(ps)
  }

  /** The pass that first dooms the message, if any does, is refused. */
  ghost predicate DoomedInARefusal(ps: Placements, cs: seq<Census>, m: MsgId) {
    cs != [] && if m in Doomed(ps, cs[0]) then Refused(ps, cs[0]) else DoomedInARefusal(Kept(ps, cs[0]), cs[1..], m)
  }

  /** Once a pass has doomed it, the message is stranded for good, or deleted for good. */
  lemma {:induction false} DoomedThenStranded(ps: Placements, logs: map<MsgId, Log>, c: Census, cs: seq<Census>, excluded: Folder -> bool, m: MsgId)
    requires m in logs && !logs[m].deleted && m in Doomed(ps, c)
    ensures var after := Passes(Kept(ps, c), LogsAfter(ps, logs, c, excluded), cs, excluded);
            Stranded(after.0, after.1, m) <==> Refused(ps, c)
  {
    var ps', logs' := Kept(ps, c), LogsAfter(ps, logs, c, excluded);
    assert forall id :: id in ps' ==> ps'[id].msg in Candidates(ps');
    UnplacedStays(ps', logs', cs, excluded, m);
    assert logs'[m].deleted <==> !Refused(ps, c);
  }

  lemma {:induction false} SparedThisTime(ps: Placements, logs: map<MsgId, Log>, c: Census, excluded: Folder -> bool, m: MsgId)
    requires m in logs && !logs[m].deleted && m in Candidates(ps) && m !in Doomed(ps, c)
    ensures m in LogsAfter(ps, logs, c, excluded) && !LogsAfter(ps, logs, c, excluded)[m].deleted && m in Candidates(Kept(ps, c))
  {
  }

  /** Over any passes, a live, placed message ends up stranded if and only if the pass that doomed it was refused. */
  lemma {:induction false} StrandedExactly(ps: Placements, logs: map<MsgId, Log>, cs: seq<Census>, excluded: Folder -> bool, m: MsgId)
    requires m in logs && !logs[m].deleted && m in Candidates(ps)
    ensures Stranded(Passes(ps, logs, cs, excluded).0, Passes(ps, logs, cs, excluded).1, m) <==> DoomedInARefusal(ps, cs, m)
    decreases |cs|
  {
    if cs != [] {
      if m in Doomed(ps, cs[0]) {
        DoomedThenStranded(ps, logs, cs[0], cs[1..], excluded, m);
      } else {
        SparedThisTime(ps, logs, cs[0], excluded, m);
        StrandedExactly(Kept(ps, cs[0]), LogsAfter(ps, logs, cs[0], excluded), cs[1..], excluded, m);
      }
    }
  }

  /** So many messages in one folder, each with its own UID. */
  function Filed(n: nat): Placements { map id: PlacementId | 0 <= id < n :: Placement(id, 0, Some(id), Some(1)) }

  /** The folder under the same numbering, and empty. */
  const Emptied: Census := map[0 := Snapshot(Some(1), {}, map[])]

  lemma {:induction false} FiledSize(n: nat)
    ensures |Filed(n).Keys| == n
  {
    if n > 0 {
      FiledSize(n - 1);
      assert Filed(n).Keys == Filed(n - 1).Keys + {n - 1};
    }
  }

  lemma AllAreDoomed(n: nat)
    ensures Candidates(Filed(n)) == Doomed(Filed(n), Emptied) == Filed(n).Keys
  {
    forall id: MsgId | id in Filed(n).Keys ensures id in Candidates(Filed(n)) && id in Doomed(Filed(n), Emptied) {
      assert Filed(n)[id].msg == id && Absent(Filed(n)[id], Emptied);
      DoomedExactly(Filed(n), Emptied, id);
    }
  }

  /** Twenty-one or more exceed the limit: the pass is refused, and every one of them is stranded for good. */
  lemma {:induction false} AnEmptiedFolderStrands(n: nat, logs: map<MsgId, Log>, cs: seq<Census>, excluded: Folder -> bool, m: MsgId)
    requires n > 20 && m < n && m in logs && !logs[m].deleted
    ensures Refused(Filed(n), Emptied)
    ensures var after := Passes(Filed(n), logs, [Emptied] + cs, excluded); Stranded(after.0, after.1, m)
  {
    FiledSize(n);
    AllAreDoomed(n);
    assert m in Filed(n).Keys;
    assert ([Emptied] + cs)[0] == Emptied;
    StrandedExactly(Filed(n), logs, [Emptied] + cs, excluded, m);
  }
}
