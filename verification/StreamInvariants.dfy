/** What every step keeps about the streams of one endpoint: what their senders hand to the
    wire, what dispatch does with what the reader takes from it, and what receivers see
    (xrpc/stream.go:86-204, xrpc/conn.go:371-386, 473-537 and 676-706). */
module StreamInvariants {
  import opened Packets
  import opened Streams
  import opened Protocol

  // ---------------------------------------------------------------- facts about the histories

  lemma SentByAppend(ps: seq<Packet>, p: Packet, k: Key)
    ensures SentBy(ps + [p], k) ==
            SentBy(ps, k) + if p.StreamPacket? && SenderKey(p.msg) == k then [p.msg] else []
  {
    assert (ps + [p])[..|ps|] == ps;
  }

  lemma SentByAppendOthers(ps: seq<Packet>, qs: seq<Packet>, k: Key)
    requires |qs| <= 1 && forall q | q in qs :: !q.StreamPacket?
    ensures SentBy(ps + qs, k) == SentBy(ps, k)
  {
    if qs == [] { assert ps + qs == ps; } else { assert qs[0] in qs && qs == [qs[0]]; SentByAppend(ps, qs[0], k); }
  }

  lemma SentByTakeOne(ps: seq<Packet>, n: nat, k: Key)
    requires n < |ps|
    ensures SentBy(ps[..n+1], k) ==
            SentBy(ps[..n], k) + if ps[n].StreamPacket? && SenderKey(ps[n].msg) == k then [ps[n].msg] else []
  {
    assert ps[..n+1] == ps[..n] + [ps[n]];
    SentByAppend(ps[..n], ps[n], k);
  }

  /** What is on the wire splits into what was read and what was not. */
  lemma {:induction false} SentBySplit(ps: seq<Packet>, n: nat, k: Key)
    requires n <= |ps|
    ensures SentBy(ps, k) == SentBy(ps[..n], k) + SentBy(ps[n..], k)
    decreases |ps|
  {
    if n == |ps| {
      assert ps[..n] == ps;
    } else {
      var m := |ps| - 1;
      SentBySplit(ps[..m], n, k);
      assert ps[..m][..n] == ps[..n] && ps[..m][n..] == ps[n..m] && ps[n..][..m-n] == ps[n..m];
    }
  }

  lemma {:induction false} SentByMembers(ps: seq<Packet>, k: Key, i: nat)
    requires i < |SentBy(ps, k)|
    ensures SenderKey(SentBy(ps, k)[i]) == k && StreamPacket(SentBy(ps, k)[i]) in ps
    decreases |ps|
  {
    var n := |ps| - 1;
    if i < |SentBy(ps[..n], k)| { SentByMembers(ps[..n], k, i); }
  }

  lemma DataOfAppend(ms: seq<StreamMsg>, m: StreamMsg)
    ensures DataOf(ms + [m]) == DataOf(ms) + if m.payload.Data? then [m.payload.any] else []
  {
    assert (ms + [m])[..|ms|] == ms;
  }

  lemma FirstCloseAppend(ms: seq<StreamMsg>, m: StreamMsg)
    ensures FirstClose(ms + [m]) ==
            if FirstClose(ms).Some? then FirstClose(ms)
            else if m.payload.Close? then Some(m.payload.error) else None
  {
    assert (ms + [m])[..|ms|] == ms;
  }

  lemma {:induction false} FirstCloseMember(ms: seq<StreamMsg>)
    ensures FirstClose(ms).Some? <==> exists i :: 0 <= i < |ms| && ms[i].payload.Close?
  {
    if ms != [] {
      var n := |ms| - 1;
      FirstCloseMember(ms[..n]);
      assert forall i | 0 <= i < n :: ms[..n][i] == ms[i];
    }
  }

  lemma {:induction false} DataOfPop(q: seq<StreamMsg>)
    requires q != [] && q[0].payload.Data?
    ensures DataOf(q) == [q[0].payload.any] + DataOf(q[1..])
  {
    var n := |q| - 1;
    assert q == q[..n] + [q[n]];
    DataOfAppend(q[..n], q[n]);
    if n == 0 {
      assert DataOf(q[..0]) == [] && DataOf(q[1..]) == [];
    } else {
      hide DataOf;
      DataOfPop(q[..n]);
      assert q[1..] == q[..n][1..] + [q[n]];
      DataOfAppend(q[..n][1..], q[n]);
    }
  }

  lemma {:induction false} DataOfAll(q: seq<StreamMsg>)
    requires forall m | m in q :: m.payload.Data?
    ensures |DataOf(q)| == |q|
  {
    if q != [] { DataOfAll(q[..|q|-1]); }
  }

  lemma {:induction false} ByteSumPop(q: seq<StreamMsg>)
    requires q != [] && forall m | m in q :: m.payload.Data?
    ensures ByteSum(q) == |q[0].payload.any.value| + ByteSum(q[1..])
  {
    if |q| == 1 {
      assert q[..0] == [] && q[1..] == [];
    } else {
      var n := |q| - 1;
      ByteSumPop(q[..n]);
      assert q[..n][1..] == q[1..][..n-1];
    }
  }

  lemma ByteSumAppend(q: seq<StreamMsg>, m: StreamMsg)
    requires m.payload.Data? && forall x | x in q :: x.payload.Data?
    ensures ByteSum(q + [m]) == ByteSum(q) + |m.payload.any.value|
  {
    assert (q + [m])[..|q|] == q;
  }

  /** The messages RecvMsg returned. */
  function GotsOf(os: seq<RecvOutcome>): seq<Any> {
    if os == [] then []
    else
      var last := os[|os|-1];
      GotsOf(os[..|os|-1]) + if last.Got? then [last.any] else []
  }

  lemma GotsOfAppend(os: seq<RecvOutcome>, o: RecvOutcome)
    ensures GotsOf(os + [o]) == GotsOf(os) + if o.Got? then [o.any] else []
  {
    assert (os + [o])[..|os|] == os;
  }

  lemma {:induction false} GracefulGots(os: seq<RecvOutcome>, datas: seq<Any>, close: Option<string>)
    requires Graceful(os, datas, close)
    ensures GotsOf(os) == if |os| <= |datas| then datas[..|os|] else datas
  {
    if os != [] {
      var n := |os| - 1;
      assert forall i | 0 <= i < n :: os[..n][i] == os[i];
      GracefulGots(os[..n], datas, close);
    }
  }

  // ---------------------------------------------------------------- one stream object

  function PendingOf(o: Obj): seq<StreamMsg> {
    if o.pending.Some? then [o.pending.value] else []
  }

  /** Everything accepted is handed over or about to be, and closes come last. */
  ghost predicate ObjSends(o: Obj, k: Key, out: seq<Packet>) {
    && o.st.id == k.id && o.st.side == k.side
    && (o.owner.NotStarted? ==> k.side.ServerSide?)
    && o.sent == SentBy(out, k) + PendingOf(o)
    && (o.pending.Some? ==> SenderKey(o.pending.value) == k)
    && (o.closing.Some? ==> o.closing.value.Close? && o.pending.None? && !o.owner.NotStarted?)
    && ClosesLast(o.sent)
    && (o.st.active ==> forall m | m in o.sent :: m.payload.Data?)
  }

  /** Messages are numbered 1, 2, 3, ... modulo 2^64. */
  ghost predicate ObjNumbered(o: Obj) {
    && o.st.sendSeq == |o.sent| % ID_SPACE
    && forall i | 0 <= i < |o.sent| :: o.sent[i].seqId == (i + 1) % ID_SPACE
  }

  /** Everything dispatched was returned by RecvMsg or is queued, in order. */
  ghost predicate ObjQueue(o: Obj) {
    && (forall m | m in o.st.queue :: m.payload.Data? && m in o.received)
    && o.st.queueByteLen == ByteSum(o.st.queue)
    && DataOf(o.received) == GotsOf(o.outcomes) + DataOf(o.st.queue)
  }

  /** Unless a local close came first, the stream is closed by the first close dispatched. */
  ghost predicate ObjClose(o: Obj) {
    && (o.closedLocally ==> !o.st.active && o.st.remoteError == "")
    && (o.st.active ==> o.st.remoteError == "")
    && (forall i | 0 <= i < |o.outcomes| && o.outcomes[i].Closed? ::
          !o.st.active && o.outcomes[i].error == o.st.remoteError)
    && (!o.closedLocally ==>
          (o.st.active <==> FirstClose(o.received).None?) &&
          (!o.st.active ==> FirstClose(o.received) == Some(o.st.remoteError)))
  }

  ghost predicate ObjGraceful(o: Obj) {
    !o.closedLocally ==> Graceful(o.outcomes, DataOf(o.received), FirstClose(o.received))
  }

  ghost predicate ObjOk(o: Obj, k: Key, out: seq<Packet>, ctxDone: bool) {
    ObjSends(o, k, out) && (!ctxDone ==> ObjNumbered(o)) && ObjQueue(o) && ObjClose(o) && ObjGraceful(o)
  }

  lemma NewObjOk(k: Key, owner: Owner, base: nat, creator: nat, out: seq<Packet>, ctxDone: bool)
    requires SentBy(out, k) == [] && (owner.NotStarted? ==> k.side.ServerSide?)
    ensures ObjOk(NewObj(k, owner, base, creator), k, out, ctxDone)
  {
  }

  lemma CloseLocallyOk(o: Obj, k: Key, out: seq<Packet>, ctxDone: bool)
    requires ObjOk(o, k, out, ctxDone)
    ensures ObjOk(CloseLocally(o), k, out, ctxDone) && !CloseLocally(o).st.active
  {
  }

  lemma StartSendOk(o: Obj, payload: Payload, k: Key, out: seq<Packet>, ctxDone: bool)
    requires ObjOk(o, k, out, ctxDone) && Idle(o)
    requires if payload.Data? then o.st.active else !o.st.active
    ensures ObjOk(StartSend(o, payload), k, out, ctxDone)
  {
    var o' := StartSend(o, payload);
    assert ObjNumbered(o) ==> ObjNumbered(o') by { NextNumber(o, payload); }
    assert ObjQueue(o') && ObjClose(o') && ObjGraceful(o');
    hide ObjQueue, ObjClose, ObjGraceful, ObjNumbered;
  }

  /** Counting modulo 2^64. */
  lemma NextSeq(n: nat)
    ensures (n % ID_SPACE + 1) % ID_SPACE == (n + 1) % ID_SPACE
  {
  }

  lemma NextNumber(o: Obj, payload: Payload)
    ensures ObjNumbered(o) ==> ObjNumbered(StartSend(o, payload))
  {
    NextSeq(|o.sent|);
  }

  lemma EndHandlerOk(o: Obj, how: HandlerEnd, k: Key, out: seq<Packet>, ctxDone: bool)
    requires ObjOk(o, k, out, ctxDone) && Idle(o)
    ensures ObjOk(DoEndHandler(o, how), k, out, ctxDone)
  {
    var o' := o.(owner := Ending);
    assert ObjOk(o', k, out, ctxDone) && ObjOk(o'.(closing := Some(Close(0, ""))), k, out, ctxDone);
    hide ObjSends, ObjQueue, ObjClose, ObjGraceful, ObjNumbered;
    CloseLocallyOk(o', k, out, ctxDone);
    match how
    case SawClosed =>
    case WithError(text) => StartSendOk(CloseLocally(o'), Close(2, text), k, out, ctxDone);
    case WithNil =>
  }

  lemma FinishCloseOk(o: Obj, k: Key, out: seq<Packet>, ctxDone: bool)
    requires ObjOk(o, k, out, ctxDone) && o.closing.Some?
    ensures ObjOk(DoFinishClose(o), k, out, ctxDone)
  {
    var o' := o.(closing := None);
    assert ObjOk(o', k, out, ctxDone) && o.closing.value.Close?;
    hide ObjSends, ObjQueue, ObjClose, ObjGraceful, ObjNumbered;
    CloseLocallyOk(o', k, out, ctxDone);
    StartSendOk(CloseLocally(o'), o.closing.value, k, out, ctxDone);
  }

  lemma TestedOk(o: Obj, payload: Payload, k: Key, out: seq<Packet>, ctxDone: bool)
    requires ObjOk(o, k, out, ctxDone) && Idle(o) && payload.Close? && !o.owner.NotStarted?
    ensures ObjOk(o.(closing := Some(payload)), k, out, ctxDone)
  {
  }

  lemma FlushOk(o: Obj, k: Key, out: seq<Packet>, ctxDone: bool)
    requires ObjOk(o, k, out, ctxDone) && o.pending.Some?
    ensures ObjOk(o.(pending := None), k, out + [StreamPacket(o.pending.value)], ctxDone)
  {
    SentByAppend(out, StreamPacket(o.pending.value), k);
  }

  lemma FlushFailsOk(o: Obj, k: Key, out: seq<Packet>)
    requires ObjOk(o, k, out, true) && o.pending.Some?
    ensures ObjOk(DoFlushFails(o), k, out, true)
  {
    assert DoFlushFails(o).sent == SentBy(out, k);
  }

  lemma RecvKeepsQueue(o: Obj)
    requires ObjQueue(o)
    requires CanReceive(o.st) && (o.st.queue != [] ==> o.st.queue[0].payload.Data?)
    ensures ObjQueue(DoRecv(o))
  {
    var o' := DoRecv(o);
    GotsOfAppend(o.outcomes, o'.outcomes[|o.outcomes|]);
    if o.st.queue != [] {
      DataOfPop(o.st.queue);
      ByteSumPop(o.st.queue);
    }
  }

  lemma RecvKeepsGraceful(o: Obj)
    requires ObjQueue(o) && ObjClose(o) && ObjGraceful(o)
    requires CanReceive(o.st) && (o.st.queue != [] ==> o.st.queue[0].payload.Data?)
    ensures ObjGraceful(DoRecv(o))
  {
    if !o.closedLocally {
      var datas, close := DataOf(o.received), FirstClose(o.received);
      if o.st.queue != [] {
        DataOfPop(o.st.queue);
        hide DataOf, FirstClose, GotsOf, Graceful, ByteSum;
        GracefulNext(o.outcomes, datas, close, DataOf(o.st.queue));
      } else {
        assert DataOf(o.st.queue) == [];
        hide DataOf, FirstClose, GotsOf, Graceful, ByteSum;
        GracefulEnd(o.outcomes, datas, close);
      }
    }
  }

  /** The next message RecvMsg returns. */
  lemma GracefulNext(os: seq<RecvOutcome>, datas: seq<Any>, close: Option<string>, rest: seq<Any>)
    requires Graceful(os, datas, close) && datas == GotsOf(os) + rest && rest != []
    ensures Graceful(os + [Got(rest[0])], datas, close)
  {
    GracefulGots(os, datas, close);
    hide GotsOf;
  }

  /** The close error, when every message was returned. */
  lemma GracefulEnd(os: seq<RecvOutcome>, datas: seq<Any>, close: Option<string>)
    requires Graceful(os, datas, close) && datas == GotsOf(os) + [] && close.Some?
    ensures Graceful(os + [Closed(close.value)], datas, close)
  {
    GracefulGots(os, datas, close);
    hide GotsOf;
  }

  lemma RecvOk(o: Obj, k: Key, out: seq<Packet>, ctxDone: bool)
    requires ObjOk(o, k, out, ctxDone)
    requires CanReceive(o.st) && (o.st.queue != [] ==> o.st.queue[0].payload.Data?)
    ensures ObjOk(DoRecv(o), k, out, ctxDone)
  {
    hide Graceful, FirstClose, DataOf, GotsOf, ByteSum, ClosesLast, SentBy;
    RecvKeepsQueue(o);
    RecvKeepsGraceful(o);
  }

  function Delivered(o: Obj, m: StreamMsg): Obj {
    o.(st := Deliver(o.st, m), received := o.received + [m])
  }

  lemma DeliverKeepsQueue(o: Obj, m: StreamMsg)
    requires ObjQueue(o)
    ensures ObjQueue(Delivered(o, m))
  {
    hide ObjQueue;
    if m.payload.Data? { PushKeepsQueue(o, m); } else { CloseKeepsQueue(o, m); }
  }

  lemma PushKeepsQueue(o: Obj, m: StreamMsg)
    requires ObjQueue(o) && m.payload.Data?
    ensures ObjQueue(Delivered(o, m))
  {
    hide DataOf, GotsOf, ByteSum;
    PushAccounts(o.received, o.outcomes, o.st.queue, m);
    assert forall x | x in Delivered(o, m).st.queue :: x in o.st.queue || x == m;
  }

  /** A data message that is received and queued keeps the account of what was received. */
  lemma PushAccounts(received: seq<StreamMsg>, outcomes: seq<RecvOutcome>, queue: seq<StreamMsg>, m: StreamMsg)
    requires m.payload.Data? && (forall x | x in queue :: x.payload.Data?)
    requires DataOf(received) == GotsOf(outcomes) + DataOf(queue)
    ensures forall x | x in queue + [m] :: x.payload.Data?
    ensures DataOf(received + [m]) == GotsOf(outcomes) + DataOf(queue + [m])
    ensures ByteSum(queue + [m]) == ByteSum(queue) + |m.payload.any.value|
  {
    DataOfAppend(received, m);
    DataOfAppend(queue, m);
    ByteSumAppend(queue, m);
    hide DataOf, GotsOf, ByteSum;
    assert GotsOf(outcomes) + DataOf(queue) + [m.payload.any] == GotsOf(outcomes) + (DataOf(queue) + [m.payload.any]);
  }

  lemma CloseKeepsQueue(o: Obj, m: StreamMsg)
    requires ObjQueue(o) && m.payload.Close?
    ensures ObjQueue(Delivered(o, m))
  {
    DataOfAppend(o.received, m);
    assert DataOf(o.received) + [] == DataOf(o.received);
    hide DataOf, GotsOf, ByteSum;
  }

  lemma DeliverKeepsClose(o: Obj, m: StreamMsg)
    requires ObjClose(o)
    ensures ObjClose(Delivered(o, m))
  {
    FirstCloseAppend(o.received, m);
    hide FirstClose;
  }

  /** Dispatching keeps a graceful receiver graceful when no data follows a close. */
  lemma DeliverKeepsGraceful(o: Obj, m: StreamMsg)
    requires ObjClose(o) && ObjGraceful(o) && ClosesLast(o.received + [m])
    ensures ObjGraceful(Delivered(o, m))
  {
    DataOfAppend(o.received, m);
    FirstCloseAppend(o.received, m);
    FirstCloseMember(o.received);
    if FirstClose(o.received).Some? { CloseStaysLast(o.received, m); }
    if !o.closedLocally {
      var o' := Delivered(o, m);
      GracefulGrows(o.outcomes, DataOf(o.received), FirstClose(o.received), DataOf(o'.received),
                    FirstClose(o'.received));
    }
    hide FirstClose, DataOf, ClosesLast, Graceful, Deliver;
  }

  /** What was seen stays graceful when, before a close, more data arrives. */
  lemma GracefulGrows(os: seq<RecvOutcome>, datas: seq<Any>, close: Option<string>, datas': seq<Any>,
                      close': Option<string>)
    requires Graceful(os, datas, close) && datas <= datas'
    requires close.Some? ==> datas' == datas && close' == close
    ensures Graceful(os, datas', close')
  {
    if |os| > |datas| { var first := os[|datas|]; }
  }

  lemma CloseStaysLast(ms: seq<StreamMsg>, m: StreamMsg)
    requires ClosesLast(ms + [m]) && exists i :: 0 <= i < |ms| && ms[i].payload.Close?
    ensures m.payload.Close?
  {
    var i :| 0 <= i < |ms| && ms[i].payload.Close?;
    assert (ms + [m])[i] == ms[i] && (ms + [m])[|ms|] == m;
  }

  lemma DeliverOk(o: Obj, m: StreamMsg, k: Key, out: seq<Packet>, ctxDone: bool)
    requires ObjOk(o, k, out, ctxDone) && ClosesLast(o.received + [m])
    ensures ObjOk(Delivered(o, m), k, out, ctxDone)
  {
    DeliverKeepsQueue(o, m);
    DeliverKeepsClose(o, m);
    DeliverKeepsGraceful(o, m);
    DeliverKeepsSends(o, m, k, out);
    hide ObjSends, ObjQueue, ObjClose, ObjGraceful, SentBy, ClosesLast;
  }

  lemma DeliverKeepsSends(o: Obj, m: StreamMsg, k: Key, out: seq<Packet>)
    requires ObjSends(o, k, out)
    ensures ObjSends(Delivered(o, m), k, out) && (ObjNumbered(o) ==> ObjNumbered(Delivered(o, m)))
  {
    hide SentBy, ClosesLast;
  }

  lemma OtherPacketsOk(o: Obj, k: Key, out: seq<Packet>, ps: seq<Packet>, ctxDone: bool)
    requires ObjOk(o, k, out, ctxDone)
    requires |ps| <= 1 && forall p | p in ps :: p.StreamPacket? ==> SenderKey(p.msg) != k
    ensures ObjOk(o, k, out + ps, ctxDone)
  {
    if ps == [] {
      assert out + ps == out;
    } else {
      assert ps[0] in ps && ps == [ps[0]];
      SentByAppend(out, ps[0], k);
    }
  }

  // ---------------------------------------------------------------- the table of one endpoint

  ghost predicate TableOk(t: Table, out: seq<Packet>, ctxDone: bool) {
    && t.live <= t.objs.Keys
    && (forall k | k in t.objs :: ObjOk(t.objs[k], k, out, ctxDone))
    && (forall i | 0 <= i < |out| :: PacketFits(t, out[i]))
  }

  predicate PacketFits(t: Table, p: Packet) {
    p.StreamPacket? ==> SenderKey(p.msg) in t.objs
  }

  /** No packet, no history: a stream end that does not exist has sent nothing. */
  lemma {:induction false} SentByNone(t: Table, out: seq<Packet>, k: Key)
    requires (forall i | 0 <= i < |out| :: PacketFits(t, out[i])) && k !in t.objs
    ensures SentBy(out, k) == []
  {
    if out != [] {
      var n := |out| - 1;
      assert PacketFits(t, out[n]);
      forall i | 0 <= i < n ensures PacketFits(t, out[..n][i]) { assert PacketFits(t, out[i]); }
      SentByNone(t, out[..n], k);
    }
  }

  lemma AppendKeepsTable(t: Table, out: seq<Packet>, ps: seq<Packet>, ctxDone: bool)
    requires TableOk(t, out, ctxDone)
    requires |ps| <= 1 && forall p | p in ps :: !p.StreamPacket?
    ensures TableOk(t, out + ps, ctxDone)
  {
    hide ObjOk;
    forall k | k in t.objs ensures ObjOk(t.objs[k], k, out + ps, ctxDone) {
      OtherPacketsOk(t.objs[k], k, out, ps, ctxDone);
    }
    forall i | 0 <= i < |out + ps| ensures PacketFits(t, (out + ps)[i]) {
      if i < |out| { assert PacketFits(t, out[i]); } else { assert (out + ps)[i] in ps; }
    }
  }

  /** Replacing one object, with `ps` handed over by its sender. */
  lemma SetObjKeepsTable(t: Table, k: Key, o: Obj, out: seq<Packet>, ps: seq<Packet>, ctxDone: bool)
    requires TableOk(t, out, ctxDone) && |ps| <= 1
    requires forall p | p in ps :: p.StreamPacket? && SenderKey(p.msg) == k
    requires ObjOk(o, k, out + ps, ctxDone)
    ensures TableOk(SetObj(t, k, o), out + ps, ctxDone)
  {
    hide ObjOk;
    var t' := SetObj(t, k, o);
    forall j | j in t'.objs ensures ObjOk(t'.objs[j], j, out + ps, ctxDone) {
      if j != k { OtherPacketsOk(t.objs[j], j, out, ps, ctxDone); }
    }
    forall i | 0 <= i < |out + ps| ensures PacketFits(t', (out + ps)[i]) {
      if i < |out| { assert PacketFits(t, out[i]); } else { assert (out + ps)[i] in ps; }
    }
  }

  lemma StreamKeepsTable(v: Invokes, t: Table, out: seq<Packet>, ctxDone: bool, op: StreamOp)
    requires TableOk(t, out, ctxDone) && StreamGuard(v, t, ctxDone, op)
    ensures TableOk(StreamEffect(v, t, ctxDone, op), out + StreamEmits(t, op), ctxDone)
  {
    hide ObjSends, ObjQueue, ObjClose, ObjGraceful, ObjNumbered;
    var ps := StreamEmits(t, op);
    assert out + [] == out;
    match op
    case RegisterStream(sid) =>
      var k := Key(ClientSide, sid);
      SentByNone(t, out, k);
      var o := NewObj(k, Serving, |SentBy(t.drops, Mirror(k))|, v.opens[sid].rid);
      NewObjOk(k, o.owner, o.base, o.creator, out, ctxDone);
      SetObjKeepsTable(t, k, o, out, ps, ctxDone);
    case Send(k, any) =>
      StartSendOk(t.objs[k], Data(any), k, out, ctxDone);
      SetObjKeepsTable(t, k, StartSend(t.objs[k], Data(any)), out, ps, ctxDone);
    case CloseStream(k, error) =>
      TestedOk(t.objs[k], CloseMsg(error), k, out, ctxDone);
      SetObjKeepsTable(t, k, t.objs[k].(closing := Some(CloseMsg(error))), out, ps, ctxDone);
    case FinishClose(k) =>
      FinishCloseOk(t.objs[k], k, out, ctxDone);
      SetObjKeepsTable(t, k, DoFinishClose(t.objs[k]), out, ps, ctxDone);
    case HandlerEnds(k, how) =>
      EndHandlerOk(t.objs[k], how, k, out, ctxDone);
      SetObjKeepsTable(t, k, DoEndHandler(t.objs[k], how), out, ps, ctxDone);
    case Recv(k) =>
      RecvOk(t.objs[k], k, out, ctxDone);
      SetObjKeepsTable(t, k, DoRecv(t.objs[k]), out, ps, ctxDone);
    case FlushStream(k) =>
      FlushOk(t.objs[k], k, out, ctxDone);
      SenderOfPending(t.objs[k], k, out, ctxDone);
      SetObjKeepsTable(t, k, t.objs[k].(pending := None), out, ps, ctxDone);
    case FlushFails(k) =>
      FlushFailsOk(t.objs[k], k, out);
      SetObjKeepsTable(t, k, DoFlushFails(t.objs[k]), out, ps, ctxDone);
    case EndStream(k) =>
      GoneOk(t.objs[k], k, out, ctxDone);
      SetObjKeepsTable(t, k, t.objs[k].(owner := Gone), out, ps, ctxDone);
  }

  lemma SenderOfPending(o: Obj, k: Key, out: seq<Packet>, ctxDone: bool)
    requires ObjOk(o, k, out, ctxDone) && o.pending.Some?
    ensures SenderKey(o.pending.value) == k
  {
  }

  lemma GoneOk(o: Obj, k: Key, out: seq<Packet>, ctxDone: bool)
    requires ObjOk(o, k, out, ctxDone)
    ensures ObjOk(o.(owner := Gone), k, out, ctxDone) && ObjOk(o.(owner := Serving), k, out, ctxDone)
  {
  }

  lemma CleanupKeepsTable(t: Table, out: seq<Packet>, ctxDone: bool)
    requires TableOk(t, out, ctxDone)
    ensures TableOk(DoCleanup(t), out, ctxDone)
  {
    hide ObjOk;
    var t' := DoCleanup(t);
    forall k | k in t'.objs ensures ObjOk(t'.objs[k], k, out, ctxDone) {
      CloseLocallyOk(t.objs[k], k, out, ctxDone);
    }
    forall i | 0 <= i < |out| ensures PacketFits(t', out[i]) { assert PacketFits(t, out[i]); }
  }

  // ---------------------------------------------------------------- what the reader did with the peer's messages

  /** For the stream end `k`: every message the reader has taken for it was dropped, if the
      stream is not registered; while it is, the dropped ones are those from before its
      registration and the rest were dispatched to it, in order. A server end never had any
      before. After it is unregistered, what it received is still a part of what was read. */
  ghost predicate RecvFits(t: Table, taken: seq<Packet>, k: Key) {
    var got, dropped := SentBy(taken, Mirror(k)), SentBy(t.drops, Mirror(k));
    if k !in t.objs then dropped == got
    else
      var o := t.objs[k];
      && o.base <= |dropped|
      && dropped[..o.base] + o.received <= got
      && (k in t.live ==> |dropped| == o.base && dropped + o.received == got)
      && (k.side.ServerSide? ==> o.base == 0)
  }

  ghost predicate TakenOk(t: Table, taken: seq<Packet>) {
    forall k: Key :: RecvFits(t, taken, k)
  }

  lemma DispatchKeepsTaken(t: Table, taken: seq<Packet>, m: StreamMsg)
    requires TakenOk(t, taken) && t.live <= t.objs.Keys
    ensures TakenOk(Dispatch(t, m), taken + [StreamPacket(m)])
  {
    hide RecvFits;
    forall k: Key ensures RecvFits(Dispatch(t, m), taken + [StreamPacket(m)], k) {
      assert RecvFits(t, taken, k);
      DispatchKeepsRecv(t, taken, m, k);
    }
  }

  lemma DispatchKeepsRecv(t: Table, taken: seq<Packet>, m: StreamMsg, k: Key)
    requires RecvFits(t, taken, k) && t.live <= t.objs.Keys
    ensures RecvFits(Dispatch(t, m), taken + [StreamPacket(m)], k)
  {
    hide RecvFits, Dispatch, TargetKey;
    if k != TargetKey(m) { DispatchKeepsOthers(t, taken, m, k); } else { DispatchHere(t, taken, m); }
  }

  lemma DispatchKeepsOthers(t: Table, taken: seq<Packet>, m: StreamMsg, k: Key)
    requires RecvFits(t, taken, k) && k != TargetKey(m)
    ensures RecvFits(Dispatch(t, m), taken + [StreamPacket(m)], k)
  {
    SentByElsewhere(taken, m, k);
    DispatchElsewhere(t, m, k);
    hide SentBy, Dispatch, TargetKey;
  }

  lemma SentByElsewhere(taken: seq<Packet>, m: StreamMsg, k: Key)
    requires k != TargetKey(m)
    ensures SentBy(taken + [StreamPacket(m)], Mirror(k)) == SentBy(taken, Mirror(k))
  {
    SentByAppend(taken, StreamPacket(m), Mirror(k));
    assert Mirror(k) != SenderKey(m);
    assert SentBy(taken, Mirror(k)) + [] == SentBy(taken, Mirror(k));
  }

  lemma DispatchElsewhere(t: Table, m: StreamMsg, k: Key)
    requires k != TargetKey(m)
    ensures var t' := Dispatch(t, m);
            && (k in t'.objs <==> k in t.objs) && (k in t.objs ==> t'.objs[k] == t.objs[k])
            && (k in t'.live <==> k in t.live) && SentBy(t'.drops, Mirror(k)) == SentBy(t.drops, Mirror(k))
  {
    SentByElsewhere(t.drops, m, k);
  }

  lemma DispatchHere(t: Table, taken: seq<Packet>, m: StreamMsg)
    requires RecvFits(t, taken, TargetKey(m)) && t.live <= t.objs.Keys
    ensures RecvFits(Dispatch(t, m), taken + [StreamPacket(m)], TargetKey(m))
  {
    var k := TargetKey(m);
    SentByAppend(taken, StreamPacket(m), Mirror(k));
    SentByAppend(t.drops, StreamPacket(m), Mirror(k));
    hide SentBy, Deliver;
  }

  lemma OtherPacketKeepsTaken(t: Table, taken: seq<Packet>, p: Packet)
    requires TakenOk(t, taken) && !p.StreamPacket?
    ensures TakenOk(t, taken + [p])
  {
    forall k: Key ensures RecvFits(t, taken + [p], k) {
      assert RecvFits(t, taken, k);
      SentByAppend(taken, p, Mirror(k));
    }
  }

  /** A change of the table that neither receives, registers nor unregisters. */
  ghost predicate SameReceivers(t: Table, t': Table) {
    && t'.objs.Keys == t.objs.Keys && t'.live <= t.live && t'.drops == t.drops
    && forall k | k in t.objs :: t'.objs[k].received == t.objs[k].received && t'.objs[k].base == t.objs[k].base
  }

  lemma SameReceiversKeepTaken(t: Table, t': Table, taken: seq<Packet>)
    requires TakenOk(t, taken) && SameReceivers(t, t')
    ensures TakenOk(t', taken)
  {
    forall k: Key ensures RecvFits(t', taken, k) {
      assert RecvFits(t, taken, k);
    }
  }

  lemma RegisteringKeepsTaken(t: Table, taken: seq<Packet>, k: Key, o: Obj)
    requires TakenOk(t, taken) && k !in t.objs
    requires o.received == [] && o.base == |SentBy(t.drops, Mirror(k))| && (k.side.ServerSide? ==> o.base == 0)
    ensures TakenOk(t.(objs := t.objs[k := o], live := t.live + {k}), taken)
  {
    var t' := t.(objs := t.objs[k := o], live := t.live + {k});
    forall j: Key ensures RecvFits(t', taken, j) {
      assert RecvFits(t, taken, j);
    }
  }

  lemma StreamKeepsTaken(v: Invokes, t: Table, taken: seq<Packet>, ctxDone: bool, op: StreamOp)
    requires TakenOk(t, taken) && StreamGuard(v, t, ctxDone, op)
    ensures TakenOk(StreamEffect(v, t, ctxDone, op), taken)
  {
    if op.RegisterStream? {
      var k := Key(ClientSide, op.sid);
      RegisteringKeepsTaken(t, taken, k, NewObj(k, Serving, |SentBy(t.drops, Mirror(k))|, v.opens[op.sid].rid));
    } else {
      SameReceiversKeepTaken(t, StreamEffect(v, t, ctxDone, op), taken);
    }
  }
}
