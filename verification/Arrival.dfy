/** Streams get through. When nothing ends or fails and the library has come to rest, everything
    every stream end sent has arrived at the other one (xrpc/conn.go:217-252, 490-518,
    xrpc/stream.go:104-204). */
module Arrival {
  import opened Packets
  import opened Streams
  import opened Protocol
  import opened CallInvariants
  import opened WireInvariants
  import opened StreamInvariants
  import opened Invariants
  import opened CallGuarantees
  import opened StreamGuarantees
  import opened StreamOrder
  import opened Deadlock
  import opened Liveness
  import opened Progress
  import opened Continuations

  /** Everything this endpoint handed over was read, and no stream is about to send or to close. */
  ghost predicate Delivers(e: Endpoint, peer: Io) {
    && e.io.written == |e.io.out| && peer.read == |e.io.out|
    && forall k | k in e.str.objs :: Idle(e.str.objs[k])
  }

  lemma CannotDo(w: World, s: Sys, x: End, op: Op)
    requires Quiet(w, s) && Internal(op)
    ensures !Enabled(w, s, Action(x, op))
  {
    assert Internal(Action(x, op).op);
    hide Enabled;
  }

  lemma WireIsEmpty(w: World, s: Sys, x: End)
    requires w.cap >= 1 && Inv(s) && HealthySys(w, s) && Quiet(w, s)
    ensures s.Of(x).io.written == |s.Of(x).io.out| && s.Of(PeerOf(x)).io.read == |s.Of(x).io.out| && s.Of(x).io.writing
  {
    hide Local, RespsOk, ReqsOk, TakenOk, Quiet, AllResolvable, AllAnswered, AllKnown, NoneLeft;
    CannotDo(w, s, x, OfLink(Write));
    CannotDo(w, s, PeerOf(x), OfLink(Read));
  }

  lemma CanFlushNow(w: World, s: Sys, x: End, k: Key)
    requires CanFlush(s.Of(x).str, k) && CanHandOff(s.Of(x).io)
    ensures Enabled(w, s, Action(x, OfStream(FlushStream(k))))
  {
  }

  lemma CanFinishNow(w: World, s: Sys, x: End, k: Key)
    requires CanFinishClose(s.Of(x).str, k)
    ensures Enabled(w, s, Action(x, OfStream(FinishClose(k))))
  {
  }

  lemma NotStartedIsIdle(e: Endpoint, p: Endpoint, k: Key)
    requires Good(e, p) && k in e.str.objs && e.str.objs[k].closing.Some?
    ensures !e.str.objs[k].owner.NotStarted?
  {
    assert ObjOk(e.str.objs[k], k, e.io.out, e.io.ctxDone);
  }

  lemma StreamsAreIdle(w: World, s: Sys, x: End, k: Key)
    requires Good(s.Of(x), s.Of(PeerOf(x))) && Quiet(w, s) && CanHandOff(s.Of(x).io) && k in s.Of(x).str.objs
    ensures Idle(s.Of(x).str.objs[k])
  {
    hide Good, Quiet, Enabled;
    CannotDo(w, s, x, OfStream(FlushStream(k)));
    CannotDo(w, s, x, OfStream(FinishClose(k)));
    if s.Of(x).str.objs[k].pending.Some? { CanFlushNow(w, s, x, k); }
    if s.Of(x).str.objs[k].closing.Some? {
      NotStartedIsIdle(s.Of(x), s.Of(PeerOf(x)), k);
      CanFinishNow(w, s, x, k);
    }
  }

  lemma QuietMeansDelivered(w: World, s: Sys, x: End)
    requires w.cap >= 1 && Inv(s) && Good(s.b, s.a) && HealthySys(w, s) && Quiet(w, s)
    ensures Delivers(s.Of(x), s.Of(PeerOf(x)).io)
  {
    hide Local, Shared, HealthySys, Quiet, Idle;
    WireIsEmpty(w, s, x);
    forall k | k in s.Of(x).str.objs ensures Idle(s.Of(x).str.objs[k]) { StreamsAreIdle(w, s, x, k); }
  }

  /** A state an undisturbed run leads to in which the library has come to rest. By
      EveryCallCompletes the library always comes to rest when user code starts nothing more. */
  ghost predicate Settled(w: World, s: Sys) {
    && w.cap >= 1 && Quiet(w, s)
    && exists acts: seq<Action> :: Run(w, INIT, acts) == Some(s) && UndisturbedRun(w, acts)
  }

  lemma SettledDelivers(w: World, s: Sys, x: End)
    requires Settled(w, s)
    ensures Reachable(w, s) && Delivers(s.Of(x), s.Of(PeerOf(x)).io)
  {
    var acts: seq<Action> :| Run(w, INIT, acts) == Some(s) && UndisturbedRun(w, acts);
    hide Local, Shared, Quiet, Delivers, Healthy;
    InitHolds();
    InitHealthy(w);
    RunKeepsInv(w, INIT, acts);
    RunKeepsHealthy(w, INIT, acts);
    ReachableInv(w, s);
    QuietMeansDelivered(w, s, x);
  }

  lemma NothingInFlight(e: Endpoint, peer: Io, k: Key)
    requires Delivers(e, peer) && k in e.str.objs
    ensures InFlight(e, peer, k) == [] && PendingOf(e.str.objs[k]) == [] && Idle(e.str.objs[k])
  {
    assert e.io.out[peer.read..] == [];
  }

  lemma NothingAfter(a: seq<StreamMsg>, b: seq<StreamMsg>, c: seq<StreamMsg>)
    requires b == [] && c == []
    ensures a + b + c == a && a + (b + c) == a
  {
  }

  /** What the client end sent has arrived: while the server's entry exists, the server end received
      exactly that, in order. */
  lemma ClientMessagesArrive(w: World, s: Sys, x: End, sid: nat)
    requires Settled(w, s) && Key(ServerSide, sid) in s.Of(PeerOf(x)).str.live
    requires Key(ClientSide, sid) in s.Of(x).str.objs
    ensures var server := Key(ServerSide, sid);
            server in s.Of(PeerOf(x)).str.objs &&
            s.Of(PeerOf(x)).str.objs[server].received == s.Of(x).str.objs[Key(ClientSide, sid)].sent
  {
    var ck, sk := Key(ClientSide, sid), Key(ServerSide, sid);
    var e, p := s.Of(x), s.Of(PeerOf(x));
    hide Settled, Reachable, Delivers, Numbered, DataOf, GotsOf, InFlight, PendingOf;
    SettledDelivers(w, s, x);
    ClientToServerIsExact(w, s, x, sid);
    NothingInFlight(e, p.io, ck);
    NothingAfter(p.str.objs[sk].received, InFlight(e, p.io, ck), PendingOf(e.str.objs[ck]));
  }

  /** What the server end sent has arrived: the client end received all of it but the messages its
      reader had taken before NewStream registered it. */
  lemma ServerMessagesArrive(w: World, s: Sys, x: End, sid: nat)
    requires Settled(w, s) && Key(ServerSide, sid) in s.Of(PeerOf(x)).str.objs
    requires Key(ClientSide, sid) in s.Of(x).str.live && Key(ClientSide, sid) in s.Of(x).str.objs
    ensures var sent, o := s.Of(PeerOf(x)).str.objs[Key(ServerSide, sid)].sent, s.Of(x).str.objs[Key(ClientSide, sid)];
            o.base <= |sent| && o.received == sent[o.base..]
  {
    var ck, sk := Key(ClientSide, sid), Key(ServerSide, sid);
    var e, p := s.Of(x), s.Of(PeerOf(x));
    hide Settled, Reachable, Delivers, DataOf, GotsOf, InFlight, PendingOf, SentBy;
    SettledDelivers(w, s, PeerOf(x));
    ServerToClientLosesAtMostAPrefix(w, s, x, sid);
    NothingInFlight(p, e.io, sk);
    assert p.str.objs[sk].sent == SentBy(e.str.drops, sk) + e.str.objs[ck].received;
  }

  /** Closes get through: a stream end that was not closed by its own side is closed if and only if
      its peer sent a close since the registration; then with the text of the first one, after
      exactly the data sent since the registration. */
  lemma ClosesArrive(w: World, s: Sys, x: End, k: Key)
    requires Settled(w, s) && k in s.Of(x).str.live && k in s.Of(x).str.objs
    requires !s.Of(x).str.objs[k].closedLocally && Mirror(k) in s.Of(PeerOf(x)).str.objs
    ensures var o, sent := s.Of(x).str.objs[k], s.Of(PeerOf(x)).str.objs[Mirror(k)].sent;
            && o.base <= |sent| && o.received == sent[o.base..]
            && (o.st.active <==> FirstClose(sent[o.base..]).None?)
            && (!o.st.active ==> FirstClose(sent[o.base..]) == Some(o.st.remoteError))
            && Graceful(o.outcomes, DataOf(sent[o.base..]), FirstClose(sent[o.base..]))
  {
    hide Settled, Reachable, Delivers, DataOf, FirstClose, Graceful, ClosesLast, InFlight;
    SettledDelivers(w, s, PeerOf(x));
    GracefulCloseKeepsData(w, s, x, k);
    NothingInFlight(s.Of(PeerOf(x)), s.Of(x).io, Mirror(k));
  }

  /** So a handler's result gets through: let the handler of an open stream return an error, or nil,
      and let nothing end or fail. When the library has come to rest, the client end, registered and
      not closed by its own side, is closed if and only if its registration did not miss the close;
      then with the handler's text, after exactly what the handler had sent since the
      registration. A client registered before the return never misses it. */
  lemma HandlerEndArrives(w: World, s: Sys, x: End, sid: nat, how: HandlerEnd, acts: seq<Action>)
    requires Reachable(w, s) && !how.SawClosed?
    requires Enabled(w, s, Action(PeerOf(x), OfStream(HandlerEnds(Key(ServerSide, sid), how))))
    requires s.Of(PeerOf(x)).str.objs[Key(ServerSide, sid)].st.active
    requires Run(w, Step(w, s, Action(PeerOf(x), OfStream(HandlerEnds(Key(ServerSide, sid), how)))), acts).Some?
    requires var t := Run(w, Step(w, s, Action(PeerOf(x), OfStream(HandlerEnds(Key(ServerSide, sid), how)))),
                          acts).value;
             && Settled(w, t) && Key(ClientSide, sid) in t.Of(x).str.live && Key(ClientSide, sid) in t.Of(x).str.objs
             && !t.Of(x).str.objs[Key(ClientSide, sid)].closedLocally
    ensures var t := Run(w, Step(w, s, Action(PeerOf(x), OfStream(HandlerEnds(Key(ServerSide, sid), how)))),
                         acts).value;
            && HeardTheEnd(t.Of(x).str.objs[Key(ClientSide, sid)], s.Of(PeerOf(x)).str.objs[Key(ServerSide, sid)].sent,
                           Continuations.Farewell(how).error)
            && (Key(ClientSide, sid) in s.Of(x).str.objs ==> !t.Of(x).str.objs[Key(ClientSide, sid)].st.active)
  {
    var y, sk := PeerOf(x), Key(ServerSide, sid);
    var t := Run(w, Step(w, s, Action(y, OfStream(HandlerEnds(sk, how)))), acts).value;
    hide Settled, Reachable, Delivers, Run, Step, HeardTheEnd, InFlight, Concludes, Enabled, Fine;
    SettledDelivers(w, t, y);
    SettledIsOpen(w, t, y);
    GoodFrom(w, t, y);
    HandlerConcludes(w, s, x, sid, how, acts);
    ReadBounds(t.Of(x), t.Of(y));
    NothingInFlight(t.Of(y), t.Of(x).io, sk);
    HandlerEndReachesPeer(w, s, x, sid, how, acts);
  }

  lemma ReadBounds(e: Endpoint, p: Endpoint)
    requires Good(p, e)
    ensures e.io.read <= |p.io.out|
  {
  }

  lemma SettledIsOpen(w: World, s: Sys, x: End)
    requires Settled(w, s)
    ensures !s.Of(x).io.ctxDone
  {
    var acts: seq<Action> :| Run(w, INIT, acts) == Some(s) && UndisturbedRun(w, acts);
    hide Local, Shared, Quiet, NoneLeft, AllResolvable, AllAnswered, AllKnown;
    InitHolds();
    InitHealthy(w);
    RunKeepsHealthy(w, INIT, acts);
  }
}
