/**
 One upload and its delivery, step by step: the protocol of UploadProtocol does let an honest client through.
 The body is any bytes; the slot is 0, the PUT holds token 0 and the send token 1.
 */
module UploadDelivery {
  import opened Common
  import opened UploadRows
  import opened UploadProtocol
  import opened UploadPayloads

  function Kept(body: Bytes): Row {
    Fresh.(state := Stored, size := Some(|body|), received := |body|, digest := Some(Digest(body)), path := true)
  }

  /** The PUT has claimed the slot and opened its file. */
  const Opening: Volume :=
    Init.vol.(nextSlot := 1, nextToken := 1, rows := map[0 := Taken.(token := Some(0))], parts := map[0 := []],
              puts := map[0 := Put(0, Streaming, [])])

  /** The body is promoted. */
  function Uploaded(body: Bytes): Volume {
    Opening.(rows := map[0 := Kept(body)], dest := map[0 := body], parts := map[], puts := map[0 := Put(0, PutEnded, body)],
             winner := map[0 := 0], landed := {0})
  }

  /** A mail has claimed the slot. */
  function ClaimedForMail(body: Bytes): State {
    State(Uploaded(body).(rows := map[0 := Kept(body).(state := Sending, lease := Some(300), token := Some(1))], nextToken := 2),
          map[0 := Send(Mail, [0], [1], [], Loading, Failed, false, None, 0)])
  }

  /** The transport has reported success. */
  function Reported(body: Bytes): State {
    State(ClaimedForMail(body).vol, map[0 := Send(Mail, [0], [1], [body], Settling, Sent, true, Some(Report(true, None)), 0)])
  }

  function PutBody(body: Bytes): seq<Step> { [OfPut(0, Write(body)), OfPut(0, PromoteRow), OfPut(0, ReplaceFile(true))] }

  const Start: seq<Step> := [Begin(7, None, 2000), PutClaim(0), OfPut(0, Open)]
  const ClaimMail: seq<Step> := [SendStart(0, Mail, [0]), OfSend(0, ClaimNext), OfSend(0, ClaimNext)]
  const Deliver: seq<Step> := [OfSend(0, LoadNext), OfSend(0, Hand), OfSend(0, Answer(Report(true, None)))]
  const Retire: seq<Step> := [OfSend(0, SettleNext), OfHouse(FreeUnlink(0)), OfHouse(FreeClear(0))]

  lemma Starts()
    ensures Run(Init, Start) == State(Opening, map[])
  {
    RunOfThree(Init, Start[0], Start[1], Start[2]);
  }

  function Writing(body: Bytes): Volume {
    Opening.(parts := map[0 := body], puts := map[0 := Put(0, Streaming, body)])
  }

  lemma Writes(body: Bytes)
    ensures Written(Opening, 0, body) == Writing(body)
  {
    assert [] + body == body;
    assert WriteAt([], 0, body) == body;
  }

  lemma Promotes(body: Bytes)
    ensures Replacing(Promoting(Writing(body), 0), 0, true) == Uploaded(body)
  {
    var promoted := Promoting(Writing(body), 0);
    assert promoted == Writing(body).(rows := map[0 := Kept(body)], puts := map[0 := Put(0, Promoted, body)], winner := map[0 := 0]);
  }

  lemma Puts(body: Bytes)
    ensures Run(State(Opening, map[]), PutBody(body)) == State(Uploaded(body), map[])
  {
    RunOfThree(State(Opening, map[]), PutBody(body)[0], PutBody(body)[1], PutBody(body)[2]);
    Writes(body);
    Promotes(body);
  }

  lemma Claims(body: Bytes)
    ensures Run(State(Uploaded(body), map[]), ClaimMail) == ClaimedForMail(body)
  {
    var s := State(Uploaded(body), map[]);
    RunOfThree(s, ClaimMail[0], ClaimMail[1], ClaimMail[2]);
    var s1 := State(Uploaded(body), map[0 := Send(Mail, [0], [], [], Claiming, Failed, false, None, 0)]);
    var s2 := State(ClaimedForMail(body).vol, map[0 := Send(Mail, [0], [1], [], Claiming, Failed, false, None, 0)]);
    assert Next(s, ClaimMail[0]) == s1;
    assert [] + [1] == [1];
    assert TakenForSend(Uploaded(body), 0) == s2.vol;
    assert Next(s1, ClaimMail[1]) == s2;
    assert Next(s2, ClaimMail[2]) == ClaimedForMail(body);
  }

  lemma Delivers(body: Bytes)
    ensures Run(ClaimedForMail(body), Deliver) == Reported(body)
  {
    var s := ClaimedForMail(body);
    RunOfThree(s, Deliver[0], Deliver[1], Deliver[2]);
    var loaded := State(s.vol, map[0 := Send(Mail, [0], [1], [body], Loading, Failed, false, None, 0)]);
    var handed := State(s.vol, map[0 := Send(Mail, [0], [1], [body], Handed, Unknown, true, None, 0)]);
    assert Loaded(s.vol, 0) == Some(body) && [] + [body] == [body];
    assert Next(s, Deliver[0]) == loaded;
    assert Next(loaded, Deliver[1]) == handed;
    assert Next(handed, Deliver[2]) == Reported(body);
  }

  lemma Retires(body: Bytes)
    ensures var s := Run(Reported(body), Retire);
            && 0 in s.sends && s.sends[0] == Reported(body).sends[0].(settled := 1)
            && s.vol.rows == map[0 := Kept(body).(state := Consumed, path := false)] && s.vol.dest == map[]
  {
    RunOfThree(Reported(body), Retire[0], Retire[1], Retire[2]);
  }

  /** The body that was uploaded is handed to the transport once; the slot ends consumed and its file is gone. */
  lemma AnUploadIsDelivered(body: Bytes)
    ensures var s := Run(Init, Start + PutBody(body) + ClaimMail + Deliver + Retire);
            && 0 in s.sends && s.sends[0].handed && s.sends[0].payloads == [body] && s.sends[0].outcome == Sent
            && 0 in s.vol.rows && s.vol.rows[0].state == Consumed && 0 !in s.vol.dest
  {
    RunConcat(Init, Start + PutBody(body) + ClaimMail + Deliver, Retire);
    RunConcat(Init, Start + PutBody(body) + ClaimMail, Deliver);
    RunConcat(Init, Start + PutBody(body), ClaimMail);
    RunConcat(Init, Start, PutBody(body));
    Starts();
    Puts(body);
    Claims(body);
    Delivers(body);
    Retires(body);
  }

  // ---- the winner a sweep truncates -----------------------------------------------------------

  const Doomed: Row := NewRow(7, None, 10).(state := Receiving, lease := Some(300), token := Some(0))

  const LateRow: Row :=
    NewRow(7, None, 10).(state := Stored, size := Some(1), received := 1, digest := Some(Digest([1])), path := true)

  /** A slot expires while its body streams, and a sweep selects it. */
  const Expiring: Volume :=
    Init.vol.(now := 10, nextSlot := 1, nextToken := 1, rows := map[0 := Doomed], parts := map[0 := [1]],
              puts := map[0 := Put(0, Streaming, [1])], sweeps := map[0 := {0}], condemned := {0})

  /** The attempt promotes its row; the sweep truncates its file. */
  const Truncating: Volume :=
    Expiring.(rows := map[0 := LateRow], parts := map[0 := []], puts := map[0 := Put(0, Promoted, [1])],
              discards := {0}, winner := map[0 := 0], cut := map[0 := 1])

  const StartLate: seq<Step> := [Begin(7, None, 10), PutClaim(0), OfPut(0, Open)]
  const Expire: seq<Step> := [OfPut(0, Write([1])), Tick(10), OfSweep(0, Select({0}))]
  const Truncate: seq<Step> := [OfSweep(0, GlobParts(0)), OfPut(0, PromoteRow), OfHouse(TruncatePart(0))]

  lemma StartsLate()
    ensures Run(Init, StartLate)
            == State(Init.vol.(nextSlot := 1, nextToken := 1, rows := map[0 := Doomed], parts := map[0 := []],
                               puts := map[0 := Put(0, Streaming, [])]), map[])
  {
    RunOfThree(Init, StartLate[0], StartLate[1], StartLate[2]);
  }

  lemma Expires()
    ensures Run(Run(Init, StartLate), Expire) == State(Expiring, map[])
  {
    StartsLate();
    var s := Run(Init, StartLate);
    RunOfThree(s, Expire[0], Expire[1], Expire[2]);
    var body: Bytes := [1];
    assert [] + body == body;
    var s1 := State(s.vol.(parts := map[0 := body], puts := map[0 := Put(0, Streaming, body)]), map[]);
    assert Next(s, Expire[0]) == s1;
    SelectsIt(s1.(vol := s1.vol.(now := 10)));
  }

  lemma SelectsIt(s: State)
    requires s.vol.now == 10 && s.vol.rows == map[0 := Doomed] && s.vol.sweeps == map[] && s.vol.condemned == {}
    ensures Next(s, Expire[2]) == s.(vol := s.vol.(sweeps := map[0 := {0}], condemned := {0}))
  {
  }

  lemma Truncates()
    ensures Run(State(Expiring, map[]), Truncate) == State(Truncating, map[])
  {
    RunOfThree(State(Expiring, map[]), Truncate[0], Truncate[1], Truncate[2]);
    GlobsIt();
    PromotesIt();
    CutsIt();
  }

  lemma GlobsIt()
    ensures Next(State(Expiring, map[]), Truncate[0]) == State(Expiring.(discards := {0}), map[])
  {
    assert (set t | t in Expiring.puts && Expiring.puts[t].slot == 0) == {0};
  }

  lemma PromotesIt()
    ensures Next(State(Expiring.(discards := {0}), map[]), Truncate[1])
            == State(Truncating.(parts := map[0 := [1]], cut := map[]), map[])
  {
  }

  lemma CutsIt()
    ensures Next(State(Truncating.(parts := map[0 := [1]], cut := map[]), map[]), Truncate[2]) == State(Truncating, map[])
  {
  }

  lemma Moves()
    ensures Run(State(Truncating, map[]), [OfPut(0, ReplaceFile(true))]).vol
            == Truncating.(parts := map[], puts := map[0 := Put(0, PutEnded, [1])], dest := map[0 := []], landed := {0})
  {
    var s, last := State(Truncating, map[]), OfPut(0, ReplaceFile(true));
    assert [last][1..] == [];
    assert Run(s, [last]) == Run(Next(s, last), []) == Next(s, last);
  }

  /**
   A run that ends with an empty payload at the destination of a 'stored' row that records one byte: the
   slot had expired, and the sweep that selected it truncated the winner's file between the promotion of
   the row and the move of the file. What is left is refused when a send reads it back.
   */
  lemma ASweepCanEmptyAPayload()
    ensures var v := Run(Init, StartLate + Expire + Truncate + [OfPut(0, ReplaceFile(true))]).vol;
            && 0 in v.rows && v.rows[0].state == Stored && v.rows[0].size == Some(1)
            && 0 in v.dest && v.dest[0] == [] && 0 in v.winner && v.winner[0] == 0 && 0 in v.puts && v.puts[0].streamed == [1]
            && Loaded(v, 0).None?
  {
    var last := OfPut(0, ReplaceFile(true));
    RunConcat(Init, StartLate + Expire + Truncate, [last]);
    RunConcat(Init, StartLate + Expire, Truncate);
    RunConcat(Init, StartLate, Expire);
    Expires();
    Truncates();
    Moves();
  }
}
