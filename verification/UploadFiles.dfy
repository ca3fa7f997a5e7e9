/**
 What is behind a slot's name on the data volume, in every run of UploadProtocol.

 A destination file holds exactly what the attempt that won its promotion streamed, unless a sweep that had
 selected the slot truncated that attempt's file before it was moved; an attempt that lost its claim changes
 neither the row nor the destination; a reclaim never removes the scratch file of the claim's present holder.
 */
module UploadFiles {
  import opened Common
  import opened UploadRows
  import opened UploadProtocol

  function Streamed(v: Volume, slot: SlotId): Bytes
    requires slot in v.winner && v.winner[slot] in v.puts
  {
    v.puts[v.winner[slot]].streamed
  }

  /** What is left of a body whose file was truncated when `at` bytes had been streamed: a hole, and what came after. */
  function Remains(streamed: Bytes, at: nat): Bytes {
    if |streamed| <= at then [] else Zeros(at) + streamed[at..]
  }

  /** What an attempt's file holds: all it streamed, unless somebody truncated it. */
  function Surviving(v: Volume, t: Token): Bytes
    requires t in v.puts
  {
    if t in v.cut then Remains(v.puts[t].streamed, v.cut[t]) else v.puts[t].streamed
  }

  /** Attempt `t` can never again match a fenced UPDATE, nor move its file to the destination. */
  predicate Dispossessed(v: Volume, t: Token)
    requires t in v.puts
  {
    v.puts[t].phase != Promoted && (v.puts[t].slot in v.rows ==> v.rows[v.puts[t].slot].token != Some(t))
  }

  predicate RowOk(v: Volume, id: SlotId)
    requires id in v.rows
  {
    var row := v.rows[id];
    && id < v.nextSlot
    && (row.token.Some? ==> row.token.value < v.nextToken)
    && (row.state in {Pending, Receiving} ==> id !in v.winner && id !in v.landed)
    && (row.state == Receiving ==>
          row.token.Some? && row.token.value in v.puts && v.puts[row.token.value].slot == id)
    && (row.state !in {Pending, Receiving} ==>
          && id in v.winner && v.winner[id] in v.puts
          && row.size == Some(|Streamed(v, id)|) && row.digest == Some(Digest(Streamed(v, id))))
    && (id in v.condemned ==> Terminal(row.state) || Expired(row, v.now))
    && (id in v.frees ==> Terminal(row.state))
    && (id in v.landed && row.state in {Stored, Sending} && id !in v.condemned ==> id in v.dest)
  }

  predicate DestOk(v: Volume, id: SlotId)
    requires id in v.dest
  {
    id in v.landed && id in v.winner && v.winner[id] in v.puts && v.dest[id] == Surviving(v, v.winner[id])
  }

  predicate WinnerOk(v: Volume, id: SlotId)
    requires id in v.winner
  {
    && v.winner[id] in v.puts && v.puts[v.winner[id]].slot == id
    && v.puts[v.winner[id]].phase !in {Claimed, Streaming}
    && (id in v.landed ==> v.puts[v.winner[id]].phase !in {Promoted, RollingBack} && v.winner[id] !in v.parts)
    && (v.winner[id] in v.cut ==> id in v.condemned)
  }

  predicate PutOk(v: Volume, t: Token)
    requires t in v.puts
  {
    var p := v.puts[t];
    && t < v.nextToken && p.slot < v.nextSlot
    && (p.phase == Claimed ==> p.streamed == [] && t !in v.parts && t !in v.cut)
    && (p.phase in {Promoted, RollingBack} ==>
          p.slot in v.winner && v.winner[p.slot] == t && p.slot !in v.landed)
    && (t in v.parts ==> v.parts[t] == Surviving(v, t))
    && (t in v.cut ==> v.cut[t] <= |p.streamed|)
  }

  /** Attempt `t` is the one the slot's row records. */
  predicate Won(v: Volume, t: Token)
    requires t in v.puts
  {
    v.puts[t].slot in v.winner && v.winner[v.puts[t].slot] == t
  }

  /** A scratch file somebody may remove belongs to garbage, or to an attempt that has lost. */
  predicate RemovalOk(v: Volume, t: Token) {
    t in v.puts && (v.puts[t].slot in v.condemned || (Dispossessed(v, t) && !Won(v, t)))
  }

  predicate ReclaimOk(v: Volume, r: PendingReclaim) {
    r.from == Receiving && r.read.Some? ==> r.read.value in v.puts && v.puts[r.read.value].slot == r.slot
  }

  ghost predicate RowsInv(v: Volume) { forall id :: id in v.rows ==> RowOk(v, id) }

  ghost predicate DiskInv(v: Volume) {
    && (forall id :: id in v.dest ==> DestOk(v, id))
    && (forall id :: id in v.winner ==> WinnerOk(v, id))
    && (forall id :: id in v.landed ==> id in v.winner)
    && (forall t :: t in v.puts ==> PutOk(v, t))
    && (forall t :: t in v.parts ==> t in v.puts)
  }

  ghost predicate RemovalInv(v: Volume) {
    && (forall t :: t in v.discards || t in v.cut ==> RemovalOk(v, t))
    && (forall r :: r in v.reclaims ==> ReclaimOk(v, r))
    && (forall w, id :: w in v.sweeps && id in v.sweeps[w] ==> id in v.condemned)
    && (forall id :: id in v.winner || id in v.condemned || id in v.frees ==> id < v.nextSlot)
  }

  ghost predicate FileInv(v: Volume) { RowsInv(v) && DiskInv(v) && RemovalInv(v) }

  // ---- what most steps come down to ---------------------------------------------------------

  /** Nothing on the disk changed, and no sweep took anything back. */
  predicate DiskAlike(v: Volume, v': Volume) {
    && v'.dest == v.dest && v'.winner == v.winner && v'.landed == v.landed && v'.puts == v.puts && v'.parts == v.parts
    && v'.cut == v.cut && v.condemned <= v'.condemned && v.nextSlot <= v'.nextSlot && v.nextToken <= v'.nextToken
  }

  /** Removing a payload leaves the disk in order. */
  lemma OnePayloadFewer(v: Volume, slot: SlotId)
    requires DiskInv(v)
    ensures DiskInv(v.(dest := v.dest - {slot}))
  {
    var v' := v.(dest := v.dest - {slot});
    forall id | id in v'.dest ensures DestOk(v', id) { assert DestOk(v, id); }
    forall id | id in v'.winner ensures WinnerOk(v', id) { assert WinnerOk(v, id); }
    forall t | t in v'.puts ensures PutOk(v', t) { assert PutOk(v, t); }
  }

  lemma SameDisk(v: Volume, v': Volume)
    requires DiskInv(v) && DiskAlike(v, v')
    ensures DiskInv(v')
  {
    forall id | id in v'.dest ensures DestOk(v', id) { assert DestOk(v, id); }
    forall id | id in v'.winner ensures WinnerOk(v', id) { assert WinnerOk(v, id); }
    forall t | t in v'.puts ensures PutOk(v', t) { assert PutOk(v, t); }
  }

  /** One row changes, and its token is the old one, none, or newly minted. */
  function WithRow(v: Volume, slot: SlotId, row: Row, nextToken: Token): Volume {
    v.(rows := v.rows[slot := row], nextToken := nextToken)
  }

  ghost predicate RowMayBecome(v: Volume, slot: SlotId, row: Row, nextToken: Token) {
    && slot in v.rows && v.nextToken <= nextToken
    && (row.token == v.rows[slot].token || row.token.None? || row.token.value >= v.nextToken)
    && RowOk(WithRow(v, slot, row, nextToken), slot)
  }

  lemma RowChangeKeepsRows(v: Volume, slot: SlotId, row: Row, nextToken: Token)
    requires FileInv(v) && RowMayBecome(v, slot, row, nextToken)
    ensures RowsInv(WithRow(v, slot, row, nextToken))
  {
  }

  lemma RowChangeKeepsDisk(v: Volume, slot: SlotId, row: Row, nextToken: Token)
    requires FileInv(v) && RowMayBecome(v, slot, row, nextToken)
    ensures DiskInv(WithRow(v, slot, row, nextToken))
  {
    SameDisk(v, WithRow(v, slot, row, nextToken));
  }

  lemma RowChangeKeepsRemoval(v: Volume, slot: SlotId, row: Row, nextToken: Token)
    requires FileInv(v) && RowMayBecome(v, slot, row, nextToken)
    ensures RemovalInv(WithRow(v, slot, row, nextToken))
  {
  }

  lemma RowChangeKeepsFiles(v: Volume, slot: SlotId, row: Row, nextToken: Token)
    requires FileInv(v) && RowMayBecome(v, slot, row, nextToken)
    ensures FileInv(WithRow(v, slot, row, nextToken))
  {
    RowChangeKeepsRows(v, slot, row, nextToken);
    RowChangeKeepsDisk(v, slot, row, nextToken);
    RowChangeKeepsRemoval(v, slot, row, nextToken);
  }

  lemma FreeKeepsFiles(v: Volume, slot: SlotId)
    requires FileInv(v) && slot in v.rows && Terminal(v.rows[slot].state)
    ensures FileInv(v.(frees := v.frees + {slot}))
  {
    SameDisk(v, v.(frees := v.frees + {slot}));
  }

  lemma FreedKeepsFiles(v: Volume, slot: SlotId)
    requires FileInv(v)
    ensures FileInv(v.(frees := v.frees - {slot}))
  {
    SameDisk(v, v.(frees := v.frees - {slot}));
  }

  // ---- steps of a PUT -----------------------------------------------------------------------

  lemma ReceiveKeepsRows(v: Volume, slot: SlotId)
    requires FileInv(v) && Matches(v.rows, slot, Pending, None)
    ensures RowsInv(Receive(v, slot))
  {
  }

  lemma ReceiveKeepsDisk(v: Volume, slot: SlotId)
    requires FileInv(v) && Matches(v.rows, slot, Pending, None)
    ensures DiskInv(Receive(v, slot))
  {
    var v' := Receive(v, slot);
    forall id | id in v'.dest ensures DestOk(v', id) { assert DestOk(v, id) && WinnerOk(v, id); }
    forall id | id in v'.winner ensures WinnerOk(v', id) { assert WinnerOk(v, id); }
    forall k | k in v'.puts ensures PutOk(v', k) { assert k in v.puts ==> PutOk(v, k); }
  }

  lemma ReceiveKeepsRemoval(v: Volume, slot: SlotId)
    requires FileInv(v) && Matches(v.rows, slot, Pending, None)
    ensures RemovalInv(Receive(v, slot))
  {
  }

  lemma ReceiveKeepsFiles(v: Volume, slot: SlotId)
    requires FileInv(v) && Matches(v.rows, slot, Pending, None)
    ensures FileInv(Receive(v, slot))
  {
    ReceiveKeepsRows(v, slot);
    ReceiveKeepsDisk(v, slot);
    ReceiveKeepsRemoval(v, slot);
  }

  lemma OpenKeepsRows(v: Volume, t: Token)
    requires FileInv(v) && PutIn(v, t, Claimed)
    ensures RowsInv(Opened(v, t))
  {
  }

  lemma OpenKeepsDisk(v: Volume, t: Token)
    requires FileInv(v) && PutIn(v, t, Claimed)
    ensures DiskInv(Opened(v, t))
  {
    var v' := Opened(v, t);
    assert PutOk(v, t);
    forall id | id in v'.dest ensures DestOk(v', id) { assert DestOk(v, id) && WinnerOk(v, id); }
    forall id | id in v'.winner ensures WinnerOk(v', id) { assert WinnerOk(v, id); }
    forall k | k in v'.puts ensures PutOk(v', k) { assert k in v.puts ==> PutOk(v, k); }
  }

  lemma OpenKeepsRemoval(v: Volume, t: Token)
    requires FileInv(v) && PutIn(v, t, Claimed)
    ensures RemovalInv(Opened(v, t))
  {
  }

  lemma OpenKeepsFiles(v: Volume, t: Token)
    requires FileInv(v) && PutIn(v, t, Claimed)
    ensures FileInv(Opened(v, t))
  {
    OpenKeepsRows(v, t);
    OpenKeepsDisk(v, t);
    OpenKeepsRemoval(v, t);
  }

  /** Writing on at the end of all that was streamed, whether or not the file was truncated meanwhile. */
  lemma WriteAppends(streamed: Bytes, at: nat, chunk: Bytes)
    requires at <= |streamed| && chunk != []
    ensures WriteAt(streamed, |streamed|, chunk) == streamed + chunk
    ensures WriteAt(Remains(streamed, at), |streamed|, chunk) == Remains(streamed + chunk, at)
  {
    assert (streamed + chunk)[at..] == streamed[at..] + chunk;
    assert streamed[|streamed|..] == [];
  }

  lemma WriteKeepsRows(v: Volume, t: Token, chunk: Bytes)
    requires FileInv(v) && PutIn(v, t, Streaming)
    ensures RowsInv(Written(v, t, chunk))
  {
    forall id | id in v.winner ensures WinnerOk(v, id) { }
  }

  lemma WriteKeepsRemoval(v: Volume, t: Token, chunk: Bytes)
    requires FileInv(v) && PutIn(v, t, Streaming)
    ensures RemovalInv(Written(v, t, chunk))
  {
  }

  lemma WriteKeepsPuts(v: Volume, t: Token, chunk: Bytes)
    requires FileInv(v) && PutIn(v, t, Streaming) && chunk != []
    ensures forall k :: k in Written(v, t, chunk).puts ==> PutOk(Written(v, t, chunk), k)
  {
    var v' := Written(v, t, chunk);
    assert PutOk(v, t);
    WriteAppends(v.puts[t].streamed, if t in v.cut then v.cut[t] else 0, chunk);
    forall k | k in v'.puts ensures PutOk(v', k) {
      assert PutOk(v, k);
    }
  }

  lemma WriteKeepsDest(v: Volume, t: Token, chunk: Bytes)
    requires FileInv(v) && PutIn(v, t, Streaming)
    ensures forall id :: id in Written(v, t, chunk).dest ==> DestOk(Written(v, t, chunk), id)
  {
    forall id | id in v.dest ensures DestOk(Written(v, t, chunk), id) {
      assert DestOk(v, id) && WinnerOk(v, id);
    }
  }

  lemma WriteKeepsWinner(v: Volume, t: Token, chunk: Bytes)
    requires FileInv(v) && PutIn(v, t, Streaming)
    ensures forall id :: id in Written(v, t, chunk).winner ==> WinnerOk(Written(v, t, chunk), id)
    ensures forall k :: k in Written(v, t, chunk).parts ==> k in Written(v, t, chunk).puts
  {
    forall id | id in v.winner ensures WinnerOk(Written(v, t, chunk), id) {
      assert WinnerOk(v, id);
    }
  }

  lemma WriteKeepsFiles(v: Volume, t: Token, chunk: Bytes)
    requires FileInv(v) && PutIn(v, t, Streaming)
    ensures FileInv(Written(v, t, chunk))
  {
    if chunk != [] {
      WriteKeepsRows(v, t, chunk);
      WriteKeepsRemoval(v, t, chunk);
      WriteKeepsPuts(v, t, chunk);
      WriteKeepsDest(v, t, chunk);
      WriteKeepsWinner(v, t, chunk);
    }
  }

  lemma RenewKeepsFiles(v: Volume, t: Token)
    requires FileInv(v) && PutIn(v, t, Streaming) && Matches(v.rows, v.puts[t].slot, Receiving, Some(t))
    ensures FileInv(Renewed(v, t))
  {
    var slot := v.puts[t].slot;
    assert RowOk(v, slot);
    RowChangeKeepsFiles(v, slot, Renewed(v, t).rows[slot], v.nextToken);
  }

  /** An attempt may stop where it is, or find that its os.replace failed. */
  lemma PhaseKeepsRows(v: Volume, t: Token, phase: PutPhase)
    requires FileInv(v) && t in v.puts
    requires phase in {Failing, PutEnded} || (phase == RollingBack && v.puts[t].phase == Promoted)
    ensures RowsInv(SetPut(v, t, phase))
  {
  }

  lemma PhaseKeepsDisk(v: Volume, t: Token, phase: PutPhase)
    requires FileInv(v) && t in v.puts
    requires phase in {Failing, PutEnded} || (phase == RollingBack && v.puts[t].phase == Promoted)
    ensures DiskInv(SetPut(v, t, phase))
  {
    var v' := SetPut(v, t, phase);
    assert PutOk(v, t);
    forall id | id in v'.dest ensures DestOk(v', id) { assert DestOk(v, id) && WinnerOk(v, id); }
    forall id | id in v'.winner ensures WinnerOk(v', id) { assert WinnerOk(v, id); }
    forall k | k in v'.puts ensures PutOk(v', k) { assert k in v.puts ==> PutOk(v, k); }
  }

  lemma PhaseKeepsRemoval(v: Volume, t: Token, phase: PutPhase)
    requires FileInv(v) && t in v.puts
    requires phase in {Failing, PutEnded} || (phase == RollingBack && v.puts[t].phase == Promoted)
    ensures RemovalInv(SetPut(v, t, phase))
  {
  }

  lemma PhaseKeepsFiles(v: Volume, t: Token, phase: PutPhase)
    requires FileInv(v) && t in v.puts
    requires phase in {Failing, PutEnded} || (phase == RollingBack && v.puts[t].phase == Promoted)
    ensures FileInv(SetPut(v, t, phase))
  {
    PhaseKeepsRows(v, t, phase);
    PhaseKeepsDisk(v, t, phase);
    PhaseKeepsRemoval(v, t, phase);
  }

  /** A row that is not touched stays in order while attempts keep their slots and bytes. */
  lemma SameRow(v: Volume, v': Volume, id: SlotId)
    requires id in v.rows && id in v'.rows && RowOk(v, id) && v'.rows[id] == v.rows[id]
    requires v'.nextSlot == v.nextSlot && v'.nextToken == v.nextToken && v'.now == v.now
    requires v'.condemned == v.condemned && v'.frees == v.frees && v'.landed == v.landed && v'.dest == v.dest
    requires (id in v'.winner <==> id in v.winner) && (id in v.winner ==> v'.winner[id] == v.winner[id])
    requires forall k :: k in v.puts ==> k in v'.puts && v'.puts[k].slot == v.puts[k].slot && v'.puts[k].streamed == v.puts[k].streamed
    ensures RowOk(v', id)
  {
  }

  lemma PromotedRowIsOk(v: Volume, t: Token)
    requires FileInv(v) && PutIn(v, t, Streaming) && Matches(v.rows, v.puts[t].slot, Receiving, Some(t))
    ensures v.puts[t].slot in Promoting(v, t).rows && RowOk(Promoting(v, t), v.puts[t].slot)
  {
    assert PutOk(v, t) && RowOk(v, v.puts[t].slot);
  }

  lemma PromoteKeepsRows(v: Volume, t: Token)
    requires FileInv(v) && PutIn(v, t, Streaming) && Matches(v.rows, v.puts[t].slot, Receiving, Some(t))
    ensures RowsInv(Promoting(v, t))
  {
    PromotedRowIsOk(v, t);
    var v' := Promoting(v, t);
    forall id | id in v'.rows ensures RowOk(v', id) {
      if id != v.puts[t].slot { SameRow(v, v', id); }
    }
  }

  lemma PromoteKeepsDest(v: Volume, t: Token)
    requires FileInv(v) && PutIn(v, t, Streaming) && Matches(v.rows, v.puts[t].slot, Receiving, Some(t))
    ensures forall id :: id in Promoting(v, t).dest ==> DestOk(Promoting(v, t), id)
  {
    assert PutOk(v, t) && RowOk(v, v.puts[t].slot);
    forall id | id in v.dest ensures DestOk(Promoting(v, t), id) {
      assert DestOk(v, id);
    }
  }

  lemma PromoteKeepsWinner(v: Volume, t: Token)
    requires FileInv(v) && PutIn(v, t, Streaming) && Matches(v.rows, v.puts[t].slot, Receiving, Some(t))
    ensures forall id :: id in Promoting(v, t).winner ==> WinnerOk(Promoting(v, t), id)
    ensures forall id :: id in Promoting(v, t).landed ==> id in Promoting(v, t).winner
  {
    assert PutOk(v, t) && RowOk(v, v.puts[t].slot);
    forall id | id in Promoting(v, t).winner ensures WinnerOk(Promoting(v, t), id) {
      assert id != v.puts[t].slot ==> WinnerOk(v, id);
      assert t in v.cut ==> RemovalOk(v, t);
    }
  }

  lemma PromoteKeepsPuts(v: Volume, t: Token)
    requires FileInv(v) && PutIn(v, t, Streaming) && Matches(v.rows, v.puts[t].slot, Receiving, Some(t))
    ensures forall k :: k in Promoting(v, t).puts ==> PutOk(Promoting(v, t), k)
  {
    assert PutOk(v, t) && RowOk(v, v.puts[t].slot);
  }

  lemma PromoteKeepsDisk(v: Volume, t: Token)
    requires FileInv(v) && PutIn(v, t, Streaming) && Matches(v.rows, v.puts[t].slot, Receiving, Some(t))
    ensures DiskInv(Promoting(v, t))
  {
    PromoteKeepsDest(v, t);
    PromoteKeepsWinner(v, t);
    PromoteKeepsPuts(v, t);
  }

  lemma PromoteKeepsRemoval(v: Volume, t: Token)
    requires FileInv(v) && PutIn(v, t, Streaming) && Matches(v.rows, v.puts[t].slot, Receiving, Some(t))
    ensures RemovalInv(Promoting(v, t))
  {
  }

  lemma PromoteKeepsFiles(v: Volume, t: Token)
    requires FileInv(v) && PutIn(v, t, Streaming) && Matches(v.rows, v.puts[t].slot, Receiving, Some(t))
    ensures FileInv(Promoting(v, t))
  {
    PromoteKeepsRows(v, t);
    PromoteKeepsDisk(v, t);
    PromoteKeepsRemoval(v, t);
  }

  lemma ReplaceKeepsRows(v: Volume, t: Token)
    requires FileInv(v) && PutIn(v, t, Promoted) && t in v.parts
    ensures RowsInv(Replacing(v, t, true))
  {
  }

  lemma ReplaceKeepsDest(v: Volume, t: Token)
    requires DiskInv(v) && PutIn(v, t, Promoted) && t in v.parts
    ensures forall id :: id in Replacing(v, t, true).dest ==> DestOk(Replacing(v, t, true), id)
    ensures forall id :: id in Replacing(v, t, true).winner ==> WinnerOk(Replacing(v, t, true), id)
  {
    assert PutOk(v, t);
    forall id | id in Replacing(v, t, true).dest ensures DestOk(Replacing(v, t, true), id) {
      assert id != v.puts[t].slot ==> DestOk(v, id);
    }
    forall id | id in v.winner ensures WinnerOk(Replacing(v, t, true), id) {
      assert WinnerOk(v, id);
    }
  }

  lemma ReplaceKeepsPuts(v: Volume, t: Token)
    requires DiskInv(v) && PutIn(v, t, Promoted) && t in v.parts
    ensures forall k :: k in Replacing(v, t, true).puts ==> PutOk(Replacing(v, t, true), k)
    ensures forall id :: id in Replacing(v, t, true).landed ==> id in Replacing(v, t, true).winner
  {
    var v' := Replacing(v, t, true);
    assert PutOk(v, t);
    forall k | k in v'.puts ensures PutOk(v', k) {
      assert PutOk(v, k);
    }
  }

  lemma ReplaceKeepsDisk(v: Volume, t: Token)
    requires FileInv(v) && PutIn(v, t, Promoted) && t in v.parts
    ensures DiskInv(Replacing(v, t, true))
  {
    ReplaceKeepsDest(v, t);
    ReplaceKeepsPuts(v, t);
  }

  lemma ReplaceKeepsRemoval(v: Volume, t: Token)
    requires FileInv(v) && PutIn(v, t, Promoted) && t in v.parts
    ensures RemovalInv(Replacing(v, t, true))
  {
  }

  lemma ReplaceKeepsFiles(v: Volume, t: Token)
    requires FileInv(v) && PutIn(v, t, Promoted) && t in v.parts
    ensures FileInv(Replacing(v, t, true))
  {
    ReplaceKeepsRows(v, t);
    ReplaceKeepsDisk(v, t);
    ReplaceKeepsRemoval(v, t);
  }

  lemma RollbackKeepsRows(v: Volume, t: Token)
    requires FileInv(v) && PutIn(v, t, RollingBack) && Matches(v.rows, v.puts[t].slot, Stored, None)
    ensures RowsInv(RolledBack(v, t))
  {
    assert PutOk(v, t) && RowOk(v, v.puts[t].slot);
  }

  lemma RollbackKeepsDest(v: Volume, t: Token)
    requires DiskInv(v) && PutIn(v, t, RollingBack)
    ensures forall id :: id in RolledBack(v, t).dest ==> DestOk(RolledBack(v, t), id)
  {
    assert PutOk(v, t);
    forall id | id in v.dest ensures DestOk(RolledBack(v, t), id) {
      assert DestOk(v, id);
    }
  }

  lemma RollbackKeepsWinner(v: Volume, t: Token)
    requires FileInv(v) && PutIn(v, t, RollingBack) && Matches(v.rows, v.puts[t].slot, Stored, None)
    ensures forall id :: id in RolledBack(v, t).winner ==> WinnerOk(RolledBack(v, t), id)
    ensures forall id :: id in RolledBack(v, t).landed ==> id in RolledBack(v, t).winner
  {
    assert PutOk(v, t);
    forall id | id in RolledBack(v, t).winner ensures WinnerOk(RolledBack(v, t), id) {
      assert WinnerOk(v, id) && id != v.puts[t].slot;
    }
  }

  lemma RollbackKeepsPuts(v: Volume, t: Token)
    requires FileInv(v) && PutIn(v, t, RollingBack) && Matches(v.rows, v.puts[t].slot, Stored, None)
    ensures forall k :: k in RolledBack(v, t).puts ==> PutOk(RolledBack(v, t), k)
  {
    assert PutOk(v, t) && RowOk(v, v.puts[t].slot);
  }

  lemma RollbackKeepsDisk(v: Volume, t: Token)
    requires FileInv(v) && PutIn(v, t, RollingBack) && Matches(v.rows, v.puts[t].slot, Stored, None)
    ensures DiskInv(RolledBack(v, t))
  {
    RollbackKeepsDest(v, t);
    RollbackKeepsWinner(v, t);
    RollbackKeepsPuts(v, t);
  }

  lemma RollbackKeepsRemoval(v: Volume, t: Token)
    requires FileInv(v) && PutIn(v, t, RollingBack) && Matches(v.rows, v.puts[t].slot, Stored, None)
    ensures RemovalInv(RolledBack(v, t))
  {
  }

  lemma RollbackKeepsFiles(v: Volume, t: Token)
    requires FileInv(v) && PutIn(v, t, RollingBack) && Matches(v.rows, v.puts[t].slot, Stored, None)
    ensures FileInv(RolledBack(v, t))
  {
    RollbackKeepsRows(v, t);
    RollbackKeepsDisk(v, t);
    RollbackKeepsRemoval(v, t);
  }

  lemma UnlinkOwnKeepsRows(v: Volume, t: Token)
    requires FileInv(v) && PutIn(v, t, Failing)
    ensures RowsInv(Unlinking(v, t))
  {
  }

  lemma UnlinkOwnKeepsDisk(v: Volume, t: Token)
    requires FileInv(v) && PutIn(v, t, Failing)
    ensures DiskInv(Unlinking(v, t))
  {
    var v' := Unlinking(v, t);
    forall id | id in v'.dest ensures DestOk(v', id) { assert DestOk(v, id) && WinnerOk(v, id); }
    forall id | id in v'.winner ensures WinnerOk(v', id) { assert WinnerOk(v, id); }
    forall k | k in v'.puts ensures PutOk(v', k) { assert k in v.puts ==> PutOk(v, k); }
  }

  lemma UnlinkOwnKeepsRemoval(v: Volume, t: Token)
    requires FileInv(v) && PutIn(v, t, Failing)
    ensures RemovalInv(Unlinking(v, t))
  {
  }

  lemma UnlinkOwnKeepsFiles(v: Volume, t: Token)
    requires FileInv(v) && PutIn(v, t, Failing)
    ensures FileInv(Unlinking(v, t))
  {
    UnlinkOwnKeepsRows(v, t);
    UnlinkOwnKeepsDisk(v, t);
    UnlinkOwnKeepsRemoval(v, t);
  }

  lemma HandBackKeepsFiles(v: Volume, t: Token)
    requires FileInv(v) && PutIn(v, t, HandingBack) && Matches(v.rows, v.puts[t].slot, Receiving, Some(t))
    ensures FileInv(HandedBack(v, t))
  {
    var slot := v.puts[t].slot;
    assert RowOk(v, slot);
    PhaseKeepsFiles(v, t, PutEnded);
    RowChangeKeepsFiles(SetPut(v, t, PutEnded), slot, HandedBack(v, t).rows[slot], v.nextToken);
  }

  // ---- sends, housekeeping, the sweep -------------------------------------------------------

  lemma TakenRowIsOk(v: Volume, slot: SlotId)
    requires FileInv(v) && Matches(v.rows, slot, Stored, None)
    ensures RowMayBecome(v, slot, Entered(v.rows[slot], Sending, v.nextToken, v.now), v.nextToken + 1)
  {
    assert RowOk(v, slot);
  }

  lemma TakenIsARowChange(v: Volume, slot: SlotId)
    requires Matches(v.rows, slot, Stored, None)
    ensures TakenForSend(v, slot) == WithRow(v, slot, Entered(v.rows[slot], Sending, v.nextToken, v.now), v.nextToken + 1)
  {
  }

  lemma TakeKeepsFiles(v: Volume, slot: SlotId)
    requires FileInv(v) && Matches(v.rows, slot, Stored, None)
    ensures FileInv(TakenForSend(v, slot))
  {
    TakenRowIsOk(v, slot);
    TakenIsARowChange(v, slot);
    RowChangeKeepsFiles(v, slot, Entered(v.rows[slot], Sending, v.nextToken, v.now), v.nextToken + 1);
  }

  lemma SettledRowIsOk(v: Volume, slot: SlotId, outcome: Outcome)
    requires FileInv(v) && Matches(v.rows, slot, Sending, None)
    ensures RowMayBecome(v, slot, Entered(v.rows[slot], SettledState(outcome), 0, 0), v.nextToken)
  {
    assert RowOk(v, slot);
  }

  lemma SettleKeepsFiles(v: Volume, slot: SlotId, outcome: Outcome)
    requires FileInv(v) && Matches(v.rows, slot, Sending, None)
    ensures FileInv(SettledSlot(v, slot, outcome))
  {
    var row := Entered(v.rows[slot], SettledState(outcome), 0, 0);
    SettledRowIsOk(v, slot, outcome);
    RowChangeKeepsFiles(v, slot, row, v.nextToken);
    if outcome != Failed {
      FreeKeepsFiles(WithRow(v, slot, row, v.nextToken), slot);
    }
  }

  lemma ReclaimSelectKeepsFiles(v: Volume, slot: SlotId, from: SlotState)
    requires FileInv(v) && InFlight(from)
    ensures FileInv(ReclaimSelected(v, slot, from))
  {
  }

  /** A won reclaim of a PUT: the file it will remove is that of an attempt which has lost. */
  lemma ReclaimedPutHasLost(v: Volume, r: PendingReclaim)
    requires FileInv(v) && r in v.reclaims && r.from == Receiving && r.read.Some?
    requires Lapsed(v.rows, r.slot, Receiving, v.now)
    ensures r.read.value in v.puts && v.puts[r.read.value].slot == r.slot
    ensures v.puts[r.read.value].phase !in {Promoted, RollingBack} && !Won(v, r.read.value)
  {
    assert ReclaimOk(v, r) && RowOk(v, r.slot) && PutOk(v, r.read.value);
  }

  lemma DiscardKeepsFiles(v: Volume, t: Token)
    requires FileInv(v) && t in v.puts && Dispossessed(v, t) && !Won(v, t)
    ensures FileInv(v.(discards := v.discards + {t}))
  {
    SameDisk(v, v.(discards := v.discards + {t}));
  }

  lemma ReclaimDropKeepsFiles(v: Volume, r: PendingReclaim)
    requires FileInv(v)
    ensures FileInv(v.(reclaims := v.reclaims - {r}))
  {
    SameDisk(v, v.(reclaims := v.reclaims - {r}));
  }

  lemma ReclaimKeepsFiles(v: Volume, r: PendingReclaim)
    requires FileInv(v) && r in v.reclaims && InFlight(r.from) && Lapsed(v.rows, r.slot, r.from, v.now)
    ensures FileInv(Reclaimed(v, r))
  {
    assert RowOk(v, r.slot);
    var v1 := v.(reclaims := v.reclaims - {r});
    ReclaimDropKeepsFiles(v, r);
    var v2 := WithRow(v1, r.slot, ReclaimedRow(v.rows[r.slot], r.from), v.nextToken);
    RowChangeKeepsFiles(v1, r.slot, ReclaimedRow(v.rows[r.slot], r.from), v.nextToken);
    if r.from == Sending {
      FreeKeepsFiles(v2, r.slot);
    } else if r.read.Some? {
      ReclaimedPutHasLost(v, r);
      DiscardKeepsFiles(v2, r.read.value);
    }
  }

  lemma TruncateKeepsRows(v: Volume, t: Token)
    requires FileInv(v) && t in v.discards && t in v.parts
    ensures RowsInv(Truncated(v, t)) && RemovalInv(Truncated(v, t))
  {
  }

  /** A file already at its destination has no .part left to truncate, and the winner's is safe until a sweep selects the slot. */
  lemma TruncateKeepsDest(v: Volume, t: Token)
    requires FileInv(v) && t in v.discards && t in v.parts
    ensures forall id :: id in v.dest ==> DestOk(Truncated(v, t), id)
    ensures forall id :: id in v.winner ==> WinnerOk(Truncated(v, t), id)
  {
    assert RemovalOk(v, t);
    forall id | id in v.dest ensures DestOk(Truncated(v, t), id) {
      assert DestOk(v, id) && WinnerOk(v, id);
    }
    forall id | id in v.winner ensures WinnerOk(Truncated(v, t), id) {
      assert WinnerOk(v, id);
    }
  }

  lemma TruncateKeepsPuts(v: Volume, t: Token)
    requires FileInv(v) && t in v.discards && t in v.parts
    ensures forall k :: k in v.puts ==> PutOk(Truncated(v, t), k)
  {
    forall k | k in v.puts ensures PutOk(Truncated(v, t), k) {
      assert PutOk(v, k);
    }
  }

  lemma TruncateKeepsFiles(v: Volume, t: Token)
    requires FileInv(v) && t in v.discards && t in v.parts
    ensures FileInv(Truncated(v, t))
  {
    TruncateKeepsRows(v, t);
    TruncateKeepsDest(v, t);
    TruncateKeepsPuts(v, t);
  }

  lemma UnlinkKeepsFiles(v: Volume, t: Token)
    requires FileInv(v) && t in v.discards
    ensures FileInv(Unlinked(v, t))
  {
    var v' := Unlinked(v, t);
    forall id | id in v'.dest ensures DestOk(v', id) { assert DestOk(v, id) && WinnerOk(v, id); }
    forall id | id in v'.winner ensures WinnerOk(v', id) { assert WinnerOk(v, id); }
    forall k | k in v'.puts ensures PutOk(v', k) { assert k in v.puts ==> PutOk(v, k); }
  }

  lemma PayloadUnlinkKeepsFiles(v: Volume, slot: SlotId)
    requires FileInv(v)
    ensures FileInv(PayloadUnlinked(v, slot))
  {
    OnePayloadFewer(v, slot);
    forall id | id in v.rows ensures RowOk(PayloadUnlinked(v, slot), id) { assert RowOk(v, id); }
  }

  lemma PathClearKeepsFiles(v: Volume, slot: SlotId)
    requires FileInv(v) && slot in v.frees
    ensures FileInv(PathCleared(v, slot))
  {
    if slot in v.rows {
      assert RowOk(v, slot);
      RowChangeKeepsFiles(v, slot, v.rows[slot].(path := false), v.nextToken);
      FreedKeepsFiles(WithRow(v, slot, v.rows[slot].(path := false), v.nextToken), slot);
    } else {
      FreedKeepsFiles(v, slot);
    }
  }

  lemma SelectKeepsRows(v: Volume, w: nat, doomed: set<SlotId>)
    requires FileInv(v) && w !in v.sweeps
    requires forall id :: id in doomed ==> id in v.rows && Actionable(v.rows[id], v.now)
    ensures RowsInv(Selected(v, w, doomed))
  {
  }

  lemma SelectKeepsRemoval(v: Volume, w: nat, doomed: set<SlotId>)
    requires FileInv(v) && w !in v.sweeps
    requires forall id :: id in doomed ==> id in v.rows && Actionable(v.rows[id], v.now)
    ensures RemovalInv(Selected(v, w, doomed))
  {
    forall id | id in doomed ensures id < v.nextSlot { assert RowOk(v, id); }
  }

  lemma SelectKeepsFiles(v: Volume, w: nat, doomed: set<SlotId>)
    requires FileInv(v) && w !in v.sweeps
    requires forall id :: id in doomed ==> id in v.rows && Actionable(v.rows[id], v.now)
    ensures FileInv(Selected(v, w, doomed))
  {
    SelectKeepsRows(v, w, doomed);
    SelectKeepsRemoval(v, w, doomed);
    SameDisk(v, Selected(v, w, doomed));
  }

  lemma SweptFileKeepsFiles(v: Volume, w: nat, slot: SlotId)
    requires FileInv(v)
    ensures FileInv(SweptFile(v, w, slot))
  {
    OnePayloadFewer(v, slot);
    forall id | id in v.rows ensures RowOk(SweptFile(v, w, slot), id) { assert RowOk(v, id); }
  }

  lemma SweptPartsKeepsFiles(v: Volume, w: nat, slot: SlotId)
    requires FileInv(v)
    ensures FileInv(SweptParts(v, w, slot))
  {
    SameDisk(v, SweptParts(v, w, slot));
  }

  lemma SweptRowsKeepsRows(v: Volume, w: nat)
    requires RowsInv(v)
    ensures RowsInv(SweptRows(v, w))
  {
    forall id | id in SweptRows(v, w).rows ensures RowOk(SweptRows(v, w), id) { assert RowOk(v, id); }
  }

  lemma SweptRowsKeepsRemoval(v: Volume, w: nat)
    requires RemovalInv(v)
    ensures RemovalInv(SweptRows(v, w))
  {
    var v' := SweptRows(v, w);
    forall t | t in v'.discards || t in v'.cut ensures RemovalOk(v', t) { assert RemovalOk(v, t); }
    forall r | r in v'.reclaims ensures ReclaimOk(v', r) { assert ReclaimOk(v, r); }
  }

  lemma SweptRowsKeepsFiles(v: Volume, w: nat)
    requires FileInv(v)
    ensures FileInv(SweptRows(v, w))
  {
    SameDisk(v, SweptRows(v, w));
    SweptRowsKeepsRows(v, w);
    SweptRowsKeepsRemoval(v, w);
  }

  lemma TickKeepsFiles(v: Volume, d: nat)
    requires FileInv(v)
    ensures FileInv(v.(now := v.now + d))
  {
    SameDisk(v, v.(now := v.now + d));
  }

  lemma BeginKeepsFiles(v: Volume, owner: nat, declared: Option<nat>, ttl: Time)
    requires FileInv(v)
    ensures FileInv(Begun(v, owner, declared, ttl))
  {
    SameDisk(v, Begun(v, owner, declared, ttl));
  }

  // ---- every step, every run ----------------------------------------------------------------

  lemma PutKeepsFiles(v: Volume, t: Token, step: PutStep)
    requires FileInv(v)
    ensures FileInv(NextPut(v, t, step))
  {
    if t in v.puts {
      var mine := Matches(v.rows, v.puts[t].slot, Receiving, Some(t));
      match step {
        case Open => if PutIn(v, t, Claimed) { OpenKeepsFiles(v, t); }
        case Write(chunk) => if PutIn(v, t, Streaming) { WriteKeepsFiles(v, t, chunk); }
        case RenewLease =>
          if PutIn(v, t, Streaming) { if mine { RenewKeepsFiles(v, t); } else { PhaseKeepsFiles(v, t, Failing); } }
        case GiveUp => PhaseKeepsFiles(v, t, Failing);
        case PromoteRow =>
          if PutIn(v, t, Streaming) { if mine { PromoteKeepsFiles(v, t); } else { PhaseKeepsFiles(v, t, Failing); } }
        case ReplaceFile(ok) =>
          if PutIn(v, t, Promoted) {
            if ok && t in v.parts { ReplaceKeepsFiles(v, t); } else { PhaseKeepsFiles(v, t, RollingBack); }
          }
        case Rollback =>
          if PutIn(v, t, RollingBack) {
            if Matches(v.rows, v.puts[t].slot, Stored, None) { RollbackKeepsFiles(v, t); }
            else { PhaseKeepsFiles(v, t, Failing); }
          }
        case UnlinkOwn => if PutIn(v, t, Failing) { UnlinkOwnKeepsFiles(v, t); }
        case HandBackRow =>
          if PutIn(v, t, HandingBack) { if mine { HandBackKeepsFiles(v, t); } else { PhaseKeepsFiles(v, t, PutEnded); } }
        case CrashPut => PhaseKeepsFiles(v, t, PutEnded);
      }
    }
  }

  lemma HouseKeepsFiles(v: Volume, step: HouseStep)
    requires FileInv(v)
    ensures FileInv(NextHouse(v, step))
  {
    match step {
      case ReclaimRead(slot, from) => if InFlight(from) { ReclaimSelectKeepsFiles(v, slot, from); }
      case ReclaimUpdate(r) =>
        if r in v.reclaims && InFlight(r.from) && Lapsed(v.rows, r.slot, r.from, v.now) { ReclaimKeepsFiles(v, r); }
        else { ReclaimDropKeepsFiles(v, r); }
      case ReclaimCrash(r) => ReclaimDropKeepsFiles(v, r);
      case TruncatePart(t) => if t in v.discards && t in v.parts { TruncateKeepsFiles(v, t); }
      case UnlinkPart(t) => if t in v.discards { UnlinkKeepsFiles(v, t); }
      case FreeAgain(slot) => if slot in v.rows && Terminal(v.rows[slot].state) { FreeKeepsFiles(v, slot); }
      case FreeUnlink(slot) => PayloadUnlinkKeepsFiles(v, slot);
      case FreeClear(slot) => if slot in v.frees { PathClearKeepsFiles(v, slot); }
    }
  }

  lemma SweepKeepsFiles(v: Volume, w: nat, step: SweepStep)
    requires FileInv(v)
    ensures FileInv(NextSweep(v, w, step))
  {
    match step {
      case Select(doomed) =>
        if w !in v.sweeps && forall id :: id in doomed ==> id in v.rows && Actionable(v.rows[id], v.now) {
          SelectKeepsFiles(v, w, doomed);
        }
      case UnlinkPayload(slot) => SweptFileKeepsFiles(v, w, slot);
      case GlobParts(slot) => SweptPartsKeepsFiles(v, w, slot);
      case Commit => SweptRowsKeepsFiles(v, w);
      case CrashSweep => SweepEndKeepsFiles(v, w);
    }
  }

  lemma SweepEndKeepsFiles(v: Volume, w: nat)
    requires FileInv(v)
    ensures FileInv(v.(sweeps := v.sweeps - {w}))
  {
  }

  lemma SendKeepsFiles(s: State, a: nat, step: SendStep)
    requires FileInv(s.vol)
    ensures FileInv(NextSend(s, a, step).vol)
  {
    if a in s.sends {
      var x := s.sends[a];
      if step.ClaimNext? && SendIn(s, a, Claiming) && |x.tokens| < |x.slots| {
        var slot := x.slots[|x.tokens|];
        if Matches(s.vol.rows, slot, Stored, None) && s.vol.rows[slot].path {
          TakeKeepsFiles(s.vol, slot);
        }
      } else if step.SettleNext? && SendIn(s, a, Settling) && x.settled < |x.tokens| && x.settled < |x.slots| {
        if Matches(s.vol.rows, x.slots[x.settled], Sending, None) {
          SettleKeepsFiles(s.vol, x.slots[x.settled], x.outcome);
        }
      }
    }
  }

  lemma StepKeepsFiles(s: State, step: Step)
    requires FileInv(s.vol)
    ensures FileInv(Next(s, step).vol)
  {
    var v := s.vol;
    match step {
      case Tick(d) => TickKeepsFiles(v, d);
      case Begin(owner, declared, ttl) => BeginKeepsFiles(v, owner, declared, ttl);
      case PutClaim(slot) => if Matches(v.rows, slot, Pending, None) { ReceiveKeepsFiles(v, slot); }
      case SendStart(a, kind, slots) =>
      case OfPut(t, ps) => PutKeepsFiles(v, t, ps);
      case OfSend(a, ss) => SendKeepsFiles(s, a, ss);
      case OfHouse(hs) => HouseKeepsFiles(v, hs);
      case OfSweep(w, ws) => SweepKeepsFiles(v, w, ws);
    }
  }

  lemma {:induction false} RunKeepsFiles(s: State, steps: seq<Step>)
    requires FileInv(s.vol)
    ensures FileInv(Run(s, steps).vol)
    decreases |steps|
  {
    if steps != [] {
      StepKeepsFiles(s, steps[0]);
      RunKeepsFiles(Next(s, steps[0]), steps[1..]);
    }
  }

  lemma ReachableFiles(steps: seq<Step>)
    ensures FileInv(Run(Init, steps).vol)
  {
    RunKeepsFiles(Init, steps);
  }

  // ---- the results --------------------------------------------------------------------------

  /** The row of a slot that has had its bytes describes them, and the attempt that won streamed them into this slot. */
  lemma RowDescribesTheBody(steps: seq<Step>, slot: SlotId)
    requires var v := Run(Init, steps).vol; slot in v.rows && v.rows[slot].state !in {Pending, Receiving}
    ensures var v := Run(Init, steps).vol;
            && slot in v.winner && v.winner[slot] in v.puts && v.puts[v.winner[slot]].slot == slot
            && v.rows[slot].size == Some(|Streamed(v, slot)|)
            && v.rows[slot].digest == Some(Digest(Streamed(v, slot)))
  {
    ReachableFiles(steps);
    var v := Run(Init, steps).vol;
    assert RowOk(v, slot) && WinnerOk(v, slot);
  }

  /** What a truncation leaves is all there was exactly if there was nothing, or if only zero bytes were lost and more came after. */
  lemma RemainsExactly(streamed: Bytes, at: nat)
    requires at <= |streamed|
    ensures Remains(streamed, at) == streamed <==>
              streamed == [] || (at < |streamed| && forall i :: 0 <= i < at ==> streamed[i] == 0)
  {
    if at < |streamed| {
      assert streamed == streamed[..at] + streamed[at..];
      assert Zeros(at) == streamed[..at] <==> forall i :: 0 <= i < at ==> streamed[i] == 0;
      assert Remains(streamed, at)[..at] == Zeros(at);
    }
  }

  /** The winner's file lost nothing before it was moved into place. */
  predicate Unharmed(v: Volume, t: Token)
    requires t in v.puts
  {
    var streamed := v.puts[t].streamed;
    t in v.cut && streamed != [] ==> v.cut[t] < |streamed| && forall i :: 0 <= i < |streamed| && i < v.cut[t] ==> streamed[i] == 0
  }

  /**
   A destination file, in whatever state its row and however the actors interleave, holds exactly the bytes
   of the attempt that won the promotion if and only if that attempt's scratch file lost nothing to a
   truncation first. Only a sweep that has selected the slot ever truncates it.
   */
  lemma DestinationIsExactly(steps: seq<Step>, slot: SlotId)
    requires slot in Run(Init, steps).vol.dest
    ensures var v := Run(Init, steps).vol;
            && slot in v.winner && v.winner[slot] in v.puts && v.puts[v.winner[slot]].slot == slot
            && (v.dest[slot] == Streamed(v, slot) <==> Unharmed(v, v.winner[slot]))
            && (v.winner[slot] in v.cut ==> slot in v.condemned)
  {
    ReachableFiles(steps);
    var v := Run(Init, steps).vol;
    assert DestOk(v, slot) && WinnerOk(v, slot) && PutOk(v, v.winner[slot]);
    if v.winner[slot] in v.cut {
      RemainsExactly(Streamed(v, slot), v.cut[v.winner[slot]]);
    }
  }

  /**
   So until a sweep selects the slot, and a sweep selects only garbage, the destination of a stored or
   sending slot, expired or not, is exact whenever it exists, and it exists once os.replace has succeeded.
   */
  lemma DestinationIsExact(steps: seq<Step>, slot: SlotId)
    requires var v := Run(Init, steps).vol;
             slot in v.rows && v.rows[slot].state in {Stored, Sending} && slot !in v.condemned
    ensures var v := Run(Init, steps).vol;
            && slot in v.winner && v.winner[slot] in v.puts
            && (slot in v.dest ==> v.dest[slot] == Streamed(v, slot))
            && (slot in v.landed ==> slot in v.dest)
  {
    ReachableFiles(steps);
    RowDescribesTheBody(steps, slot);
    assert RowOk(Run(Init, steps).vol, slot);
    if slot in Run(Init, steps).vol.dest {
      DestinationIsExactly(steps, slot);
    }
  }

  /** A slot waiting for bytes, or receiving them, has no file at its destination. */
  lemma NoPayloadBeforePromotion(steps: seq<Step>, slot: SlotId)
    requires var v := Run(Init, steps).vol; slot in v.rows && v.rows[slot].state in {Pending, Receiving}
    ensures slot !in Run(Init, steps).vol.dest
  {
    ReachableFiles(steps);
    var v := Run(Init, steps).vol;
    assert RowOk(v, slot);
    assert slot in v.dest ==> DestOk(v, slot);
  }

  /** The attempt has lost its claim: it is neither promoted nor the holder the row names. */
  predicate HasLost(v: Volume, t: Token) {
    t in v.puts && v.puts[t].phase !in {Promoted, RollingBack} && Dispossessed(v, t)
  }

  /** Two volumes that differ in no row, no destination and no attempt's file but t's. */
  ghost predicate DifferInOwn(v: Volume, v': Volume, t: Token) {
    && v'.rows == v.rows && v'.dest == v.dest && v'.winner == v.winner
    && (forall k :: k != t ==> (k in v'.parts <==> k in v.parts) && (k in v.parts ==> v'.parts[k] == v.parts[k]))
  }

  lemma OpensInOwn(v: Volume, t: Token)
    ensures DifferInOwn(v, Opened(v, t), t)
  {
  }

  lemma WritesInOwn(v: Volume, t: Token, chunk: Bytes)
    ensures DifferInOwn(v, Written(v, t, chunk), t)
  {
  }

  lemma UnlinksInOwn(v: Volume, t: Token)
    ensures DifferInOwn(v, Unlinking(v, t), t)
  {
  }

  lemma EndsInOwn(v: Volume, t: Token)
    ensures DifferInOwn(v, GivenUp(v, t), t) && DifferInOwn(v, PutCrashed(v, t), t)
  {
  }

  lemma RenewalIsFenced(v: Volume, t: Token)
    requires HasLost(v, t)
    ensures DifferInOwn(v, Renewed(v, t), t) && DifferInOwn(v, HandedBack(v, t), t)
  {
  }

  lemma PromotionIsFenced(v: Volume, t: Token)
    requires HasLost(v, t)
    ensures DifferInOwn(v, Promoting(v, t), t)
  {
  }

  lemma NothingToMove(v: Volume, t: Token, ok: bool)
    requires HasLost(v, t)
    ensures DifferInOwn(v, Replacing(v, t, ok), t) && DifferInOwn(v, RolledBack(v, t), t)
  {
  }

  /** Whatever a dispossessed attempt does next, it changes no row, no destination and no other attempt's file. */
  lemma DispossessedIsInert(v: Volume, t: Token, step: PutStep)
    requires HasLost(v, t)
    ensures DifferInOwn(v, NextPut(v, t, step), t)
  {
    match step {
      case Open => OpensInOwn(v, t);
      case Write(chunk) => WritesInOwn(v, t, chunk);
      case ReplaceFile(ok) => NothingToMove(v, t, ok);
      case Rollback => NothingToMove(v, t, true);
      case RenewLease => RenewalIsFenced(v, t);
      case PromoteRow => PromotionIsFenced(v, t);
      case HandBackRow => RenewalIsFenced(v, t);
      case GiveUp => EndsInOwn(v, t);
      case UnlinkOwn => UnlinksInOwn(v, t);
      case CrashPut => EndsInOwn(v, t);
    }
  }

  // Losing is for good: a token that left the row never comes back to it.

  lemma OwnStepsKeepLost(v: Volume, t: Token, step: PutStep)
    requires HasLost(v, t)
    ensures HasLost(NextPut(v, t, step), t)
  {
    DispossessedIsInert(v, t, step);
  }

  lemma RenewKeepsLost(v: Volume, k: Token, t: Token)
    requires HasLost(v, t) && k != t && k in v.puts
    ensures HasLost(Renewed(v, k), t)
  {
  }

  lemma PromoteKeepsLost(v: Volume, k: Token, t: Token)
    requires HasLost(v, t) && k != t && k in v.puts
    ensures HasLost(Promoting(v, k), t)
  {
  }

  lemma RollbackKeepsLost(v: Volume, k: Token, t: Token)
    requires HasLost(v, t) && k != t && k in v.puts
    ensures HasLost(RolledBack(v, k), t)
  {
  }

  lemma HandBackKeepsLost(v: Volume, k: Token, t: Token)
    requires HasLost(v, t) && k != t && k in v.puts
    ensures HasLost(HandedBack(v, k), t)
  {
  }

  lemma OtherPutsKeepLost(v: Volume, k: Token, step: PutStep, t: Token)
    requires HasLost(v, t) && k != t && k in v.puts
    ensures HasLost(NextPut(v, k, step), t)
  {
    match step {
      case RenewLease => RenewKeepsLost(v, k, t);
      case PromoteRow => PromoteKeepsLost(v, k, t);
      case Rollback => RollbackKeepsLost(v, k, t);
      case HandBackRow => HandBackKeepsLost(v, k, t);
      case _ =>
    }
  }

  lemma TakeKeepsLost(v: Volume, slot: SlotId, t: Token)
    requires HasLost(v, t) && t < v.nextToken
    ensures HasLost(TakenForSend(v, slot), t)
  {
  }

  lemma SettleKeepsLost(v: Volume, slot: SlotId, outcome: Outcome, t: Token)
    requires HasLost(v, t)
    ensures HasLost(SettledSlot(v, slot, outcome), t)
  {
  }

  lemma SendsKeepLost(s: State, a: nat, step: SendStep, t: Token)
    requires HasLost(s.vol, t) && t < s.vol.nextToken
    ensures HasLost(NextSend(s, a, step).vol, t)
  {
    if a in s.sends {
      var x := s.sends[a];
      if step.ClaimNext? && |x.tokens| < |x.slots| {
        TakeKeepsLost(s.vol, x.slots[|x.tokens|], t);
      } else if step.SettleNext? && x.settled < |x.slots| {
        SettleKeepsLost(s.vol, x.slots[x.settled], x.outcome, t);
      }
    }
  }

  lemma ReclaimKeepsLost(v: Volume, r: PendingReclaim, t: Token)
    requires HasLost(v, t)
    ensures HasLost(Reclaimed(v, r), t)
  {
  }

  lemma HouseKeepsLost(v: Volume, step: HouseStep, t: Token)
    requires HasLost(v, t)
    ensures HasLost(NextHouse(v, step), t)
  {
    if step.ReclaimUpdate? {
      ReclaimKeepsLost(v, step.reclaim, t);
    }
  }

  lemma SweepsKeepLost(v: Volume, w: nat, step: SweepStep, t: Token)
    requires HasLost(v, t)
    ensures HasLost(NextSweep(v, w, step), t)
  {
  }

  lemma BeginKeepsLost(v: Volume, owner: nat, declared: Option<nat>, ttl: Time, t: Token)
    requires HasLost(v, t) && v.puts[t].slot < v.nextSlot
    ensures HasLost(Begun(v, owner, declared, ttl), t)
  {
  }

  lemma ReceiveKeepsLost(v: Volume, slot: SlotId, t: Token)
    requires HasLost(v, t) && t < v.nextToken
    ensures HasLost(Receive(v, slot), t)
  {
  }

  lemma StepKeepsLost(s: State, step: Step, t: Token)
    requires FileInv(s.vol) && HasLost(s.vol, t)
    ensures HasLost(Next(s, step).vol, t)
  {
    var v := s.vol;
    assert PutOk(v, t);
    match step {
      case Tick(d) =>
      case Begin(owner, declared, ttl) => BeginKeepsLost(v, owner, declared, ttl, t);
      case PutClaim(slot) => ReceiveKeepsLost(v, slot, t);
      case SendStart(a, kind, slots) =>
      case OfPut(k, ps) => if k == t { OwnStepsKeepLost(v, t, ps); } else if k in v.puts { OtherPutsKeepLost(v, k, ps, t); }
      case OfSend(a, ss) => SendsKeepLost(s, a, ss, t);
      case OfHouse(hs) => HouseKeepsLost(v, hs, t);
      case OfSweep(w, ws) => SweepsKeepLost(v, w, ws, t);
    }
  }

  lemma {:induction false} LosingIsForGood(s: State, steps: seq<Step>, t: Token)
    requires FileInv(s.vol) && HasLost(s.vol, t)
    ensures HasLost(Run(s, steps).vol, t)
    decreases |steps|
  {
    if steps != [] {
      StepKeepsLost(s, steps[0], t);
      StepKeepsFiles(s, steps[0]);
      LosingIsForGood(Next(s, steps[0]), steps[1..], t);
    }
  }

  /**
   The scratch file a winning reclaim queues for removal is that of an attempt which has lost its claim, and
   it still is whenever the removal is carried out, whatever happens in between and whether or not a sweep
   has taken the slot: no reclaim ever removes the file of the attempt that holds the slot.
   */
  lemma ReclaimsSpareTheHolder(before: seq<Step>, r: PendingReclaim, after: seq<Step>)
    requires var v := Run(Init, before).vol;
             r in v.reclaims && r.from == Receiving && r.read.Some? && Lapsed(v.rows, r.slot, Receiving, v.now)
    ensures var s := Next(Run(Init, before), OfHouse(ReclaimUpdate(r)));
            && r.read.value in s.vol.discards
            && var v := Run(s, after).vol;
               && HasLost(v, r.read.value) && !Matches(v.rows, v.puts[r.read.value].slot, Receiving, Some(r.read.value))
  {
    var s, step := Run(Init, before), OfHouse(ReclaimUpdate(r));
    ReachableFiles(before);
    ReclaimedPutHasLost(s.vol, r);
    StepKeepsFiles(s, step);
    assert HasLost(Next(s, step).vol, r.read.value);
    LosingIsForGood(Next(s, step), after, r.read.value);
  }

  /** Any scratch file queued for removal on a slot no sweep has selected is that of an attempt which has lost. */
  lemma RemovalSparesTheHolder(steps: seq<Step>, t: Token)
    requires var v := Run(Init, steps).vol; t in v.discards && t in v.puts && v.puts[t].slot !in v.condemned
    ensures var v := Run(Init, steps).vol;
            && v.puts[t].phase != Promoted
            && !Matches(v.rows, v.puts[t].slot, Receiving, Some(t))
  {
    ReachableFiles(steps);
    assert RemovalOk(Run(Init, steps).vol, t);
  }

  /** Only expired or spent slots are ever taken by a sweep. */
  lemma SweepsTakeGarbage(steps: seq<Step>, id: SlotId)
    requires var v := Run(Init, steps).vol; id in v.condemned && id in v.rows
    ensures var v := Run(Init, steps).vol; Terminal(v.rows[id].state) || Expired(v.rows[id], v.now)
  {
    ReachableFiles(steps);
    assert RowOk(Run(Init, steps).vol, id);
  }

  // ---- nobody else touches the holder's file --------------------------------------------------

  predicate SamePart(v: Volume, v': Volume, t: Token) {
    (t in v.parts <==> t in v'.parts) && (t in v.parts ==> v'.parts[t] == v.parts[t])
  }

  lemma OtherPutsLeaveIt(v: Volume, k: Token, step: PutStep, t: Token)
    requires k != t
    ensures SamePart(v, NextPut(v, k, step), t)
  {
  }

  lemma HouseLeavesIt(v: Volume, step: HouseStep, t: Token)
    requires t !in v.discards
    ensures SamePart(v, NextHouse(v, step), t)
  {
  }

  lemma SendsLeaveIt(s: State, a: nat, step: SendStep)
    ensures NextSend(s, a, step).vol.parts == s.vol.parts
  {
  }

  lemma OthersLeaveIt(s: State, step: Step, t: Token)
    requires t !in s.vol.discards && (step.OfPut? ==> step.put != t)
    ensures SamePart(s.vol, Next(s, step).vol, t)
  {
    match step {
      case OfPut(k, ps) => OtherPutsLeaveIt(s.vol, k, ps, t);
      case OfHouse(hs) => HouseLeavesIt(s.vol, hs, t);
      case OfSend(a, ss) => SendsLeaveIt(s, a, ss);
      case OfSweep(w, ws) => SweepsLeaveAll(s.vol, w, ws);
      case SendStart(a, kind, slots) => assert Started(s, a, kind, slots).vol == s.vol;
      case PutClaim(slot) => assert Receive(s.vol, slot).parts == s.vol.parts;
      case Begin(_, _, _) =>
      case Tick(_) =>
    }
  }

  lemma SweepsLeaveAll(v: Volume, w: nat, step: SweepStep)
    ensures NextSweep(v, w, step).parts == v.parts
  {
  }

  /** While an attempt holds its slot and no sweep has selected it, no step but its own changes or removes its scratch file. */
  lemma TheHolderKeepsItsFile(steps: seq<Step>, t: Token, step: Step)
    requires var v := Run(Init, steps).vol;
             && t in v.puts && v.puts[t].slot !in v.condemned
             && (v.puts[t].phase == Promoted || Matches(v.rows, v.puts[t].slot, Receiving, Some(t)))
    requires step.OfPut? ==> step.put != t
    ensures SamePart(Run(Init, steps).vol, Next(Run(Init, steps), step).vol, t)
  {
    if t in Run(Init, steps).vol.discards { RemovalSparesTheHolder(steps, t); }
    OthersLeaveIt(Run(Init, steps), step, t);
  }
}
