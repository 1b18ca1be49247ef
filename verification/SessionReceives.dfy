/** Every RecvFileOp of every run: what it has stored. */
module SessionReceives {
  import opened Text
  import opened Replies
  import opened Commands
  import opened Engine
  import opened SessionEffects
  import opened SessionRuns
  import RecvFile

  /** What has reached the data socket of an upload during the run. */
  function Arrived(cfg: Config, now: int, es: seq<Event>, op: OpId): string {
    if es == [] then ""
    else
      var before, e := Arrived(cfg, now, es[..|es| - 1], op), es[|es| - 1];
      if e.Incoming? && e.op == op && Enabled(cfg, Reach(cfg, now, es[..|es| - 1]), e) then before + e.bytes else before
  }

  /** The file and what has not been read yet are together what has arrived. */
  ghost predicate Stored(r: RecvFile.Receiver, arrived: string) {
    RecvFile.Settled(r) && r.file + r.incoming == arrived
  }

  lemma DealStores(r: RecvFile.Receiver, script: seq<RecvFile.Splice>, arrived: string)
    requires Stored(r, arrived)
    ensures var (q, status) := RecvFile.Deal(r, script, None);
            Stored(q, arrived) && (status.Finished? ==> q.file == arrived)
  {
    if r.incoming != "" {
      RecvFile.DrainKeeps(r, script, None);
      RecvFile.DealAnswers(r, script, None);
      var q := RecvFile.Drain(r, script, None).0;
      assert RecvFile.Stream(q) == q.file + q.incoming && RecvFile.Stream(r) == r.file + r.incoming;
    } else {
      assert r.file + r.incoming == r.file;
    }
  }

  /** A new upload has received nothing, for its operation is new. */
  ghost predicate RecvsOk(cfg: Config, now: int, es: seq<Event>) {
    var s := Reach(cfg, now, es);
    && (forall id :: id in s.recvs ==> id < s.heap.next && Stored(s.recvs[id], Arrived(cfg, now, es, id)))
    && (forall id :: id !in s.recvs ==> Arrived(cfg, now, es, id) == "")
  }

  lemma LineRecvs(cfg: Config, s: State)
    ensures var t := OnLine(cfg, s);
            && s.heap.next <= t.heap.next
            && (t.recvs == s.recvs
                || (t.recvs == s.recvs[s.heap.next := RecvFile.Start()] && t.heap.next == s.heap.next + 1))
  {
    LineEffect(cfg, s);
  }

  lemma ReceivedRecvs(cfg: Config, s: State, i: nat, ec: bool, script: seq<RecvFile.Splice>)
    requires i < |s.heap.conts| && s.heap.conts[i].op in s.recvs
    ensures var op := s.heap.conts[i].op;
            var t := OnReceive(cfg, s, i, ec, script);
            t.recvs == (if ec then s.recvs else s.recvs[op := RecvFile.Deal(s.recvs[op], script, None).0])
            && t.heap.next == s.heap.next
  {
    ReceiveEffect(cfg, s, i, ec, script);
  }

  // what one more event adds to the arrivals
  lemma ArrivedSnoc(cfg: Config, now: int, es: seq<Event>, e: Event, id: OpId)
    ensures Arrived(cfg, now, es + [e], id) ==
              Arrived(cfg, now, es, id)
              + (if e.Incoming? && e.op == id && Enabled(cfg, Reach(cfg, now, es), e) then e.bytes else "")
  {
    assert (es + [e])[..|es|] == es;
  }

  lemma StepRecvs(cfg: Config, now: int, es: seq<Event>, e: Event)
    requires RecvsOk(cfg, now, es) && Enabled(cfg, Reach(cfg, now, es), e)
    ensures RecvsOk(cfg, now, es + [e])
  {
    var s := Reach(cfg, now, es);
    ReachSnoc(cfg, now, es, e);
    StepEffect(cfg, s, e);
    forall id ensures Arrived(cfg, now, es + [e], id) ==
                        Arrived(cfg, now, es, id) + (if e.Incoming? && e.op == id then e.bytes else "") {
      ArrivedSnoc(cfg, now, es, e, id);
    }
    if e.Line? {
      LineRecvs(cfg, s);
      NewRecvs(cfg, now, es, e);
    } else if e.Receivable? {
      ReadRecvs(cfg, now, es, e);
    } else if e.Incoming? {
      IncomingRecvs(cfg, now, es, e);
    }
  }

  lemma ReadRecvs(cfg: Config, now: int, es: seq<Event>, e: Event)
    requires RecvsOk(cfg, now, es) && e.Receivable? && Enabled(cfg, Reach(cfg, now, es), e)
    requires Reach(cfg, now, es + [e]) == Step(cfg, Reach(cfg, now, es), e)
    requires forall id :: Arrived(cfg, now, es + [e], id) == Arrived(cfg, now, es, id) + ""
    ensures RecvsOk(cfg, now, es + [e])
  {
    var s := Reach(cfg, now, es);
    ReceivedRecvs(cfg, s, e.i, e.ec, e.script);
    var op := s.heap.conts[e.i].op;
    DealStores(s.recvs[op], e.script, Arrived(cfg, now, es, op));
  }

  lemma NewRecvs(cfg: Config, now: int, es: seq<Event>, e: Event)
    requires RecvsOk(cfg, now, es) && e.Line?
    requires var s, t := Reach(cfg, now, es), Reach(cfg, now, es + [e]);
             && s.heap.next <= t.heap.next
             && (t.recvs == s.recvs
                 || (t.recvs == s.recvs[s.heap.next := RecvFile.Start()] && t.heap.next == s.heap.next + 1))
    requires forall id :: Arrived(cfg, now, es + [e], id) == Arrived(cfg, now, es, id) + ""
    ensures RecvsOk(cfg, now, es + [e])
  {
    var s, t := Reach(cfg, now, es), Reach(cfg, now, es + [e]);
    assert Arrived(cfg, now, es, s.heap.next) == "";
    forall id | id in t.recvs ensures id < t.heap.next && Stored(t.recvs[id], Arrived(cfg, now, es + [e], id)) {
      OneRecv(s.recvs, t.recvs, s.heap.next, id, Arrived(cfg, now, es, id));
    }
  }

  // an old upload, or a new one
  lemma OneRecv(before: map<OpId, RecvFile.Receiver>, after: map<OpId, RecvFile.Receiver>, next: OpId, id: OpId,
                arrived: string)
    requires after == before || after == before[next := RecvFile.Start()]
    requires id in after && (id in before ==> Stored(before[id], arrived)) && (id !in before ==> arrived == "")
    requires next !in before
    ensures Stored(after[id], arrived)
  {
  }

  lemma IncomingRecvs(cfg: Config, now: int, es: seq<Event>, e: Event)
    requires RecvsOk(cfg, now, es) && e.Incoming? && Enabled(cfg, Reach(cfg, now, es), e)
    requires Reach(cfg, now, es + [e]) == Step(cfg, Reach(cfg, now, es), e)
    requires forall id :: Arrived(cfg, now, es + [e], id) ==
                            Arrived(cfg, now, es, id) + (if e.op == id then e.bytes else "")
    ensures RecvsOk(cfg, now, es + [e])
  {
    var r := Reach(cfg, now, es).recvs[e.op];
    assert r.file + (r.incoming + e.bytes) == r.file + r.incoming + e.bytes;
  }

  /** On every run, for every upload: the file and the unread bytes are exactly what has
      arrived, in order, and nothing is left in the pipe. */
  lemma {:induction false} ReceivesThroughout(cfg: Config, now: int, es: seq<Event>)
    ensures RecvsOk(cfg, now, es)
  {
    if es != [] {
      var init, e := es[..|es| - 1], es[|es| - 1];
      assert es == init + [e];
      ReceivesThroughout(cfg, now, init);
      if Enabled(cfg, Reach(cfg, now, init), e) {
        StepRecvs(cfg, now, init, e);
      } else {
        IgnoredRecvs(cfg, now, init, e);
      }
    }
  }

  lemma IgnoredRecvs(cfg: Config, now: int, es: seq<Event>, e: Event)
    requires RecvsOk(cfg, now, es) && !Enabled(cfg, Reach(cfg, now, es), e)
    ensures RecvsOk(cfg, now, es + [e])
  {
    ReachSnoc(cfg, now, es, e);
    forall id ensures Arrived(cfg, now, es + [e], id) == Arrived(cfg, now, es, id) {
      ArrivedSnoc(cfg, now, es, e, id);
    }
  }

  /** A 226 of a STOR means that all that has arrived on its data connection is in the file;
      and it is written exactly when the peer has closed and nothing is left unread. */
  lemma UploadIsComplete(cfg: Config, now: int, es: seq<Event>, i: nat, ec: bool, script: seq<RecvFile.Splice>)
    requires Enabled(cfg, Reach(cfg, now, es), Receivable(i, ec, script))
    ensures UploadCompletes(Reach(cfg, now, es), Step(cfg, Reach(cfg, now, es), Receivable(i, ec, script)), i, ec,
                            Arrived(cfg, now, es, Reach(cfg, now, es).heap.conts[i].op))
  {
    var s := Reach(cfg, now, es);
    ReceivesThroughout(cfg, now, es);
    var op := s.heap.conts[i].op;
    ReceiveEffect(cfg, s, i, ec, script);
    DealStores(s.recvs[op], script, Arrived(cfg, now, es, op));
    RecvFile.DealAnswers(s.recvs[op], script, None);
    assert s.hist.logged != s.hist.logged + [Message(Code(TRANSFER_COMPLETE), NoToken)];
  }

  ghost predicate UploadCompletes(s: State, t: State, i: nat, ec: bool, arrived: string) {
    && i < |s.heap.conts|
    && var op := s.heap.conts[i].op;
    && op in s.recvs && op in t.recvs
    && (t.hist.logged == s.hist.logged + [Message(Code(TRANSFER_COMPLETE), NoToken)]
        <==> !ec && s.recvs[op].incoming == "")
    && (!ec && s.recvs[op].incoming == "" ==> t.recvs[op].file == arrived)
  }

  /** What an event of a RecvFileOp leads to. */
  ghost predicate ReceiveGoes(s: State, t: State, i: nat, ec: bool, script: seq<RecvFile.Splice>) {
    && i < |s.heap.conts|
    && var op := s.heap.conts[i].op;
    && op in s.recvs
    && var unread := |s.recvs[op].incoming|;
    && var rest := s.heap.conts[..i] + s.heap.conts[i + 1..];
    && if ec || (unread > 0 && RecvFile.FailsFirst(unread, script)) then
         t.heap.conts == rest && op !in t.heap.refs && t.hist.logged == s.hist.logged
       else if unread == 0 then
         t.heap.conts == rest && op !in t.heap.refs && |t.hist.logged| == |s.hist.logged| + 1
       else t.heap.conts == rest + [Readable(op)] && t.hist.logged == s.hist.logged
  }

  /** In every run a RecvFileOp is given up only for an error of its wait or a splice that fails
      before one would block; it completes when its peer has closed, and waits again otherwise. */
  lemma ReceiveGoesOn(cfg: Config, now: int, es: seq<Event>, i: nat, ec: bool, script: seq<RecvFile.Splice>)
    requires Enabled(cfg, Reach(cfg, now, es), Receivable(i, ec, script))
    ensures ReceiveGoes(Reach(cfg, now, es), Step(cfg, Reach(cfg, now, es), Receivable(i, ec, script)), i, ec, script)
  {
    AccountingIsExact(cfg, now, es);
    ReceiveIs(cfg, Reach(cfg, now, es), i, ec, script);
    ReceiveLeads(cfg, Reach(cfg, now, es), Step(cfg, Reach(cfg, now, es), Receivable(i, ec, script)), i, ec, script);
  }

  lemma ReceiveIs(cfg: Config, s: State, i: nat, ec: bool, script: seq<RecvFile.Splice>)
    requires Enabled(cfg, s, Receivable(i, ec, script))
    ensures i < |s.heap.conts| && s.heap.conts[i].op in s.recvs
    ensures Step(cfg, s, Receivable(i, ec, script)) == OnReceive(cfg, s, i, ec, script)
  {
  }

  lemma ReceiveLeads(cfg: Config, s: State, t: State, i: nat, ec: bool, script: seq<RecvFile.Splice>)
    requires Unshared(s.heap.refs) && i < |s.heap.conts| && s.heap.conts[i].op in s.recvs
    requires t == OnReceive(cfg, s, i, ec, script)
    ensures ReceiveGoes(s, t, i, ec, script)
  {
    ReceiveEffect(cfg, s, i, ec, script);
    RecvFile.DealEndsIff(s.recvs[s.heap.conts[i].op], script, None);
  }
}
