/** What users of streams can rely on in every reachable state, for every stream of either
    endpoint: nothing sent by the client end is lost, duplicated or reordered; of what the
    server end sends at most a prefix is; no message crosses to another stream; and closing
    loses no data. */
module StreamGuarantees {
  import opened Packets
  import opened Streams
  import opened Protocol
  import opened CallInvariants
  import opened WireInvariants
  import opened StreamInvariants
  import opened Invariants
  import opened CallGuarantees

  /** Handed over by the stream end `k` of `e`, and not read by the peer yet: held by the
      writer or on the wire. */
  function InFlight(e: Endpoint, peer: Io, k: Key): seq<StreamMsg>
    requires peer.read <= |e.io.out|
  {
    SentBy(e.io.out[peer.read..], k)
  }

  /** The messages of a stream end numbered from 1 on, modulo 2^64. */
  ghost predicate Numbered(ms: seq<StreamMsg>, k: Key) {
    forall i | 0 <= i < |ms| :: ms[i].seqId == (i + 1) % ID_SPACE && SenderKey(ms[i]) == k
  }

  lemma SentAndReceived(e: Endpoint, p: Endpoint, k: Key)
    requires Good(e, p) && k in p.str.live && Mirror(k) in e.str.objs
    ensures k in p.str.objs && p.io.read <= |e.io.out|
    ensures e.str.objs[Mirror(k)].sent ==
            SentBy(p.str.drops, Mirror(k)) + p.str.objs[k].received
            + InFlight(e, p.io, Mirror(k)) + PendingOf(e.str.objs[Mirror(k)])
    ensures |SentBy(p.str.drops, Mirror(k))| == p.str.objs[k].base
    ensures k.side.ServerSide? ==> SentBy(p.str.drops, Mirror(k)) == []
  {
    var m := Mirror(k);
    assert TableOk(e.str, e.io.out, e.io.ctxDone) && TableOk(p.str, p.io.out, p.io.ctxDone);
    assert TakenOk(p.str, e.io.out[..p.io.read]) && WireOk(p.io, e.io);
    hide Good;
    assert RecvFits(p.str, e.io.out[..p.io.read], k);
    assert ObjOk(e.str.objs[m], m, e.io.out, e.io.ctxDone);
    SentBySplit(e.io.out, p.io.read, m);
  }

  lemma SentNumbered(e: Endpoint, k: Key)
    requires Local(e) && k in e.str.objs && !e.io.ctxDone
    ensures Numbered(e.str.objs[k].sent, k)
  {
    var o := e.str.objs[k];
    assert ObjOk(o, k, e.io.out, e.io.ctxDone);
    hide Local;
    forall i | 0 <= i < |o.sent| ensures SenderKey(o.sent[i]) == k {
      if i < |SentBy(e.io.out, k)| { SentByMembers(e.io.out, k, i); }
    }
  }

  lemma Returned(e: Endpoint, k: Key)
    requires Local(e) && k in e.str.objs
    ensures DataOf(e.str.objs[k].received) == GotsOf(e.str.objs[k].outcomes) + DataOf(e.str.objs[k].st.queue)
    ensures (forall m | m in e.str.objs[k].st.queue :: m.payload.Data?)
    ensures e.str.objs[k].st.queueByteLen == ByteSum(e.str.objs[k].st.queue)
  {
    assert ObjOk(e.str.objs[k], k, e.io.out, e.io.ctxDone);
  }

  /** The server end of stream `sid` at `p` against the client end at `e`. */
  ghost predicate Exact(e: Endpoint, p: Endpoint, sid: nat) {
    var ck, sk := Key(ClientSide, sid), Key(ServerSide, sid);
    && sk in p.str.objs && p.io.read <= |e.io.out|
    && var server := p.str.objs[sk];
       && DataOf(server.received) == GotsOf(server.outcomes) + DataOf(server.st.queue)
       && (ck in e.str.objs ==>
             && e.str.objs[ck].sent == server.received + InFlight(e, p.io, ck) + PendingOf(e.str.objs[ck])
             && (!e.io.ctxDone ==> Numbered(e.str.objs[ck].sent, ck)))
       && (ck !in e.str.objs ==> server.received == [])
  }

  /** Client to server: while the server's entry exists, every message the client end accepted
      is one RecvMsg returned, one in the server's queue, or one in flight, each once and in
      order; data and closes are numbered 1, 2, 3, ... Before the client end exists the server
      end has received nothing. */
  lemma ClientToServerIsExact(w: World, s: Sys, x: End, sid: nat)
    requires Reachable(w, s) && Key(ServerSide, sid) in s.Of(PeerOf(x)).str.live
    ensures Exact(s.Of(x), s.Of(PeerOf(x)), sid)
  {
    GoodFrom(w, s, x);
    ServerEndIsExact(s.Of(x), s.Of(PeerOf(x)), sid);
    hide Good, Exact;
  }

  lemma ServerEndIsExact(e: Endpoint, p: Endpoint, sid: nat)
    requires Good(e, p) && Key(ServerSide, sid) in p.str.live
    ensures Exact(e, p, sid)
  {
    var ck, sk := Key(ClientSide, sid), Key(ServerSide, sid);
    LiveObjects(e, p);
    hide Good, Numbered, InFlight, SentBy, DataOf, GotsOf;
    assert Mirror(sk) == ck;
    ReturnedAt(p, e, sk);
    if ck in e.str.objs {
      SentAndReceived(e, p, sk);
      NoneBefore(SentBy(p.str.drops, ck), p.str.objs[sk].received, InFlight(e, p.io, ck), PendingOf(e.str.objs[ck]));
      if !e.io.ctxDone { SentNumberedAt(e, p, ck); }
    } else {
      NothingReceived(e, p, sk);
    }
  }

  lemma LiveObjects(e: Endpoint, p: Endpoint)
    requires Good(e, p)
    ensures p.str.live <= p.str.objs.Keys && p.io.read <= |e.io.out|
  {
  }

  lemma ReturnedAt(e: Endpoint, p: Endpoint, k: Key)
    requires Good(p, e) && k in e.str.objs
    ensures DataOf(e.str.objs[k].received) == GotsOf(e.str.objs[k].outcomes) + DataOf(e.str.objs[k].st.queue)
  {
    hide Local;
    Returned(e, k);
  }

  lemma SentNumberedAt(e: Endpoint, p: Endpoint, k: Key)
    requires Good(e, p) && k in e.str.objs && !e.io.ctxDone
    ensures Numbered(e.str.objs[k].sent, k)
  {
    hide Local;
    SentNumbered(e, k);
  }

  lemma NoneBefore<T>(none: seq<T>, a: seq<T>, b: seq<T>, c: seq<T>)
    requires none == []
    ensures none + a + b + c == a + b + c
  {
  }

  lemma NothingReceived(e: Endpoint, p: Endpoint, k: Key)
    requires Good(e, p) && k in p.str.objs && Mirror(k) !in e.str.objs
    ensures p.str.objs[k].received == []
  {
    assert RecvFits(p.str, e.io.out[..p.io.read], k);
    SentByNone(e.str, e.io.out, Mirror(k));
    SentBySplit(e.io.out, p.io.read, Mirror(k));
  }

  /** The client end of stream `sid` at `e` against the server end at `p`. */
  ghost predicate LosesOnlyAPrefix(e: Endpoint, p: Endpoint, sid: nat)
    requires Key(ServerSide, sid) in p.str.objs
  {
    var ck, sk := Key(ClientSide, sid), Key(ServerSide, sid);
    var dropped := SentBy(e.str.drops, sk);
    && e.io.read <= |p.io.out|
    && var unread := InFlight(p, e.io, sk) + PendingOf(p.str.objs[sk]);
       if ck in e.str.objs then
         && p.str.objs[sk].sent == dropped + e.str.objs[ck].received + unread
         && |dropped| == e.str.objs[ck].base
         && DataOf(e.str.objs[ck].received) == GotsOf(e.str.objs[ck].outcomes) + DataOf(e.str.objs[ck].st.queue)
       else
         p.str.objs[sk].sent == dropped + unread
  }

  /** Server to client: what the server end sent is, in order, what the client dropped because
      NewStream had not registered the stream yet, what the client end received since, and what
      is in flight. Nothing is dropped after registration. */
  lemma ServerToClientLosesAtMostAPrefix(w: World, s: Sys, x: End, sid: nat)
    requires Reachable(w, s) && Key(ServerSide, sid) in s.Of(PeerOf(x)).str.objs
    requires Key(ClientSide, sid) in s.Of(x).str.objs ==> Key(ClientSide, sid) in s.Of(x).str.live
    ensures LosesOnlyAPrefix(s.Of(x), s.Of(PeerOf(x)), sid)
  {
    GoodFrom(w, s, x);
    ClientEndLosesAtMostAPrefix(s.Of(x), s.Of(PeerOf(x)), sid);
    hide Good, LosesOnlyAPrefix;
  }

  lemma ClientEndLosesAtMostAPrefix(e: Endpoint, p: Endpoint, sid: nat)
    requires Good(e, p) && Key(ServerSide, sid) in p.str.objs
    requires Key(ClientSide, sid) in e.str.objs ==> Key(ClientSide, sid) in e.str.live
    ensures LosesOnlyAPrefix(e, p, sid)
  {
    var ck, sk := Key(ClientSide, sid), Key(ServerSide, sid);
    hide Local, Shared, InFlight, SentBy, DataOf, GotsOf;
    assert Mirror(ck) == sk;
    if ck in e.str.objs {
      SentAndReceived(p, e, ck);
      ReturnedAt(e, p, ck);
      Regroup3(SentBy(e.str.drops, sk), e.str.objs[ck].received, InFlight(p, e.io, sk), PendingOf(p.str.objs[sk]));
    } else {
      AllDropped(e, p, ck);
      Regroup2(SentBy(e.str.drops, sk), InFlight(p, e.io, sk), PendingOf(p.str.objs[sk]));
    }
  }

  lemma Regroup2<T>(a: seq<T>, b: seq<T>, c: seq<T>)
    ensures a + b + c == a + (b + c)
  {
  }

  lemma Regroup3<T>(a: seq<T>, b: seq<T>, c: seq<T>, d: seq<T>)
    ensures a + b + c + d == a + b + (c + d)
  {
  }

  lemma AllDropped(e: Endpoint, p: Endpoint, k: Key)
    requires Good(e, p) && k !in e.str.objs && Mirror(k) in p.str.objs
    ensures e.io.read <= |p.io.out|
    ensures p.str.objs[Mirror(k)].sent ==
            SentBy(e.str.drops, Mirror(k)) + InFlight(p, e.io, Mirror(k)) + PendingOf(p.str.objs[Mirror(k)])
  {
    var m := Mirror(k);
    assert TableOk(p.str, p.io.out, p.io.ctxDone) && TakenOk(e.str, p.io.out[..e.io.read]) && WireOk(e.io, p.io);
    hide Good;
    assert RecvFits(e.str, p.io.out[..e.io.read], k);
    assert ObjOk(p.str.objs[m], m, p.io.out, p.io.ctxDone);
    SentBySplit(p.io.out, e.io.read, m);
  }

  /** Both endpoints number their streams from 1, so both may hold both ends with the same id.
      Still every message a stream end received, queued or not, was sent by the end with the
      same id and the opposite side at the peer. */
  lemma NoCrossTalk(w: World, s: Sys, x: End, k: Key, m: StreamMsg)
    requires Reachable(w, s) && k in s.Of(x).str.objs
    requires m in s.Of(x).str.objs[k].received || m in s.Of(x).str.objs[k].st.queue
    ensures m.streamId == k.id && m.sender != k.side
    ensures Mirror(k).id == k.id && Mirror(k).side != k.side
    ensures Mirror(k) in s.Of(PeerOf(x)).str.objs && m in s.Of(PeerOf(x)).str.objs[Mirror(k)].sent
  {
    GoodFrom(w, s, x);
    ReceivedFromMirror(s.Of(x), s.Of(PeerOf(x)), k, m);
    hide Good;
  }

  lemma ReceivedFromMirror(e: Endpoint, p: Endpoint, k: Key, m: StreamMsg)
    requires Good(e, p) && k in e.str.objs
    requires m in e.str.objs[k].received || m in e.str.objs[k].st.queue
    ensures SenderKey(m) == Mirror(k)
    ensures Mirror(k) in p.str.objs && m in p.str.objs[Mirror(k)].sent
  {
    if m in e.str.objs[k].st.queue { QueuedWasReceived(e, k, m); }
    assert TakenOk(e.str, p.io.out[..e.io.read]) && WireOk(e.io, p.io);
    assert TableOk(p.str, p.io.out, p.io.ctxDone);
    hide Good, TableOk, TakenOk;
    var i := ReceivedIsOnWire(e.str, p.io.out, e.io.read, k, m);
    hide SentBy;
    SentByMembers(p.io.out, Mirror(k), i);
    SenderExists(p, Mirror(k), i);
  }

  lemma QueuedWasReceived(e: Endpoint, k: Key, m: StreamMsg)
    requires Local(e) && k in e.str.objs && m in e.str.objs[k].st.queue
    ensures m in e.str.objs[k].received
  {
    assert ObjOk(e.str.objs[k], k, e.io.out, e.io.ctxDone);
  }

  lemma ReceivedIsOnWire(t: Table, out: seq<Packet>, read: nat, k: Key, m: StreamMsg) returns (i: nat)
    requires read <= |out| && TakenOk(t, out[..read]) && k in t.objs && m in t.objs[k].received
    ensures i < |SentBy(out, Mirror(k))| && SentBy(out, Mirror(k))[i] == m
  {
    hide SentBy;
    var o := t.objs[k];
    var n: nat :| n < |o.received| && o.received[n] == m;
    assert RecvFits(t, out[..read], k);
    i := o.base + n;
    assert (SentBy(t.drops, Mirror(k))[..o.base] + o.received)[i] == m;
    SentBySplit(out, read, Mirror(k));
  }

  lemma SenderExists(p: Endpoint, k: Key, i: nat)
    requires TableOk(p.str, p.io.out, p.io.ctxDone) && i < |SentBy(p.io.out, k)|
    ensures k in p.str.objs && SentBy(p.io.out, k)[i] in p.str.objs[k].sent
  {
    if k !in p.str.objs { SentByNone(p.str, p.io.out, k); }
    assert ObjOk(p.str.objs[k], k, p.io.out, p.io.ctxDone);
  }

  /** What a receiver at `e` has of the stream end `k`, against its sender at `p`. */
  ghost predicate ClosesAfterData(e: Endpoint, p: Endpoint, k: Key)
    requires k in e.str.objs && Mirror(k) in p.str.objs
  {
    var o, peer := e.str.objs[k], p.str.objs[Mirror(k)];
    && Graceful(o.outcomes, DataOf(o.received), FirstClose(o.received))
    && o.base <= |peer.sent| && o.received <= peer.sent[o.base..]
    && ClosesLast(peer.sent)
    && (k.side.ServerSide? ==> o.base == 0)
    && e.io.read <= |p.io.out|
    && (InFlight(p, e.io, Mirror(k)) == [] && peer.pending.None? ==>
          && o.received == peer.sent[o.base..]
          && (o.st.active <==> FirstClose(peer.sent[o.base..]).None?)
          && (!o.st.active ==> FirstClose(peer.sent[o.base..]) == Some(o.st.remoteError)))
  }

  /** Closing keeps data. For a stream end that was not closed locally, RecvMsg returns the
      messages dispatched to it in order, and then the error of the peer's first close, for
      ever. Once everything the peer sent has arrived, that is exactly what the peer sent since
      the registration, and the stream is closed if and only if a close is among it. */
  lemma GracefulCloseKeepsData(w: World, s: Sys, x: End, k: Key)
    requires Reachable(w, s) && k in s.Of(x).str.live && k in s.Of(x).str.objs
    requires !s.Of(x).str.objs[k].closedLocally
    requires Mirror(k) in s.Of(PeerOf(x)).str.objs
    ensures ClosesAfterData(s.Of(x), s.Of(PeerOf(x)), k)
  {
    GoodFrom(w, s, x);
    CloseKeepsData(s.Of(x), s.Of(PeerOf(x)), k);
    hide Good, ClosesAfterData;
  }

  lemma ReceiverState(e: Endpoint, p: Endpoint, k: Key)
    requires Good(e, p) && k in e.str.objs && Mirror(k) in p.str.objs
    ensures ObjClose(e.str.objs[k]) && ObjGraceful(e.str.objs[k]) && ClosesLast(p.str.objs[Mirror(k)].sent)
  {
    assert ObjOk(e.str.objs[k], k, e.io.out, e.io.ctxDone);
    assert ObjOk(p.str.objs[Mirror(k)], Mirror(k), p.io.out, p.io.ctxDone);
  }

  lemma CloseKeepsData(e: Endpoint, p: Endpoint, k: Key)
    requires Good(e, p) && k in e.str.live && k in e.str.objs
    requires !e.str.objs[k].closedLocally && Mirror(k) in p.str.objs
    ensures ClosesAfterData(e, p, k)
  {
    hide Good, InFlight, SentBy, DataOf, GotsOf, FirstClose, ClosesLast, Graceful;
    ReceivedPart(e, p, k);
    ReceiverState(e, p, k);
  }

  /** What a stream end received is a part of what its peer's end sent, from the registration on. */
  lemma ReceivedPart(e: Endpoint, p: Endpoint, k: Key)
    requires Good(e, p) && k in e.str.live && k in e.str.objs && Mirror(k) in p.str.objs
    ensures var o, peer := e.str.objs[k], p.str.objs[Mirror(k)];
            && o.base <= |peer.sent| && o.received <= peer.sent[o.base..] && (k.side.ServerSide? ==> o.base == 0)
            && e.io.read <= |p.io.out|
            && (InFlight(p, e.io, Mirror(k)) == [] && peer.pending.None? ==> o.received == peer.sent[o.base..])
  {
    var o, peer := e.str.objs[k], p.str.objs[Mirror(k)];
    hide Local, Shared, InFlight, SentBy;
    SentAndReceived(p, e, k);
    Middle(SentBy(e.str.drops, Mirror(k)), o.received, InFlight(p, e.io, Mirror(k)), PendingOf(peer), peer.sent);
  }

  lemma Middle<T>(a: seq<T>, b: seq<T>, c: seq<T>, d: seq<T>, all: seq<T>)
    requires all == a + b + c + d
    ensures b <= all[|a|..] && (c == [] && d == [] ==> b == all[|a|..])
  {
    assert all[|a|..] == b + c + d;
  }

  // ---------------------------------------------------------------- the end of a handler

  lemma EndIsStep(w: World, s: Sys, x: End, k: Key, how: HandlerEnd)
    requires Enabled(w, s, Action(x, OfStream(HandlerEnds(k, how))))
    ensures k in s.Of(x).str.objs
    ensures Step(w, s, Action(x, OfStream(HandlerEnds(k, how)))).Of(x).str ==
            SetObj(s.Of(x).str, k, DoEndHandler(s.Of(x).str.objs[k], how))
  {
    hide DoEndHandler;
  }

  lemma SentBeforeClose(e: Endpoint, p: Endpoint, k: Key)
    requires Good(e, p) && k in e.str.objs && e.str.objs[k].st.active
    ensures forall m | m in e.str.objs[k].sent :: m.payload.Data?
  {
    assert ObjOk(e.str.objs[k], k, e.io.out, e.io.ctxDone);
  }

  lemma {:induction false} FirstCloseIsLast(ms: seq<StreamMsg>, last: StreamMsg)
    requires (forall m | m in ms :: m.payload.Data?) && last.payload.Close?
    ensures FirstClose(ms + [last]) == Some(last.payload.error) && DataOf(ms + [last]) == DataOf(ms)
  {
    FirstCloseAppend(ms, last);
    DataOfAppend(ms, last);
    FirstCloseMember(ms);
  }

  /** The error text arrives: when the peer sent `before` and then closed with `text`, all of it has
      arrived and the close was not dropped before registration, then the stream is closed with
      that very text, and what it received are the messages of `before` since registration. */
  lemma ErrorTextArrives(w: World, s: Sys, x: End, k: Key, before: seq<StreamMsg>, last: StreamMsg)
    requires Reachable(w, s) && k in s.Of(x).str.live && k in s.Of(x).str.objs
    requires !s.Of(x).str.objs[k].closedLocally && Mirror(k) in s.Of(PeerOf(x)).str.objs
    requires s.Of(PeerOf(x)).str.objs[Mirror(k)].sent == before + [last]
    requires (forall m | m in before :: m.payload.Data?) && last.payload.Close?
    requires s.Of(x).str.objs[k].base <= |before|
    requires s.Of(x).io.read <= |s.Of(PeerOf(x)).io.out|
    requires InFlight(s.Of(PeerOf(x)), s.Of(x).io, Mirror(k)) == [] && s.Of(PeerOf(x)).str.objs[Mirror(k)].pending.None?
    ensures var o := s.Of(x).str.objs[k];
            && !o.st.active && o.st.remoteError == last.payload.error
            && DataOf(o.received) == DataOf(before[o.base..])
  {
    GracefulCloseKeepsData(w, s, x, k);
    var o := s.Of(x).str.objs[k];
    assert (before + [last])[o.base..] == before[o.base..] + [last];
    FirstCloseIsLast(before[o.base..], last);
    hide InFlight, FirstClose, DataOf, Reachable, Graceful, ClosesLast;
  }
}
