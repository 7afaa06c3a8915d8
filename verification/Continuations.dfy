/** What holds in every continuation of a run: what a stream end sent when its handler returned
    reaches the peer, what registration costs is settled when it happens, and streams nobody will
    close stay open (xrpc/conn.go:473-488, 520-537 and 693-703). */
module Continuations {
  import opened Packets
  import opened Streams
  import opened Protocol
  import opened CallInvariants
  import opened WireInvariants
  import opened StreamInvariants
  import opened Invariants
  import opened CallGuarantees
  import opened StreamGuarantees
  import opened StreamOrder

  // ---------------------------------------------------------------- states of a run

  /** What every reachable state satisfies. */
  ghost predicate Fine(s: Sys) {
    Inv(s) && Good(s.b, s.a) && AllFollow(s.a) && AllFollow(s.b)
  }

  lemma StepKeepsFine(w: World, s: Sys, act: Action)
    requires Fine(s) && Enabled(w, s, act)
    ensures Fine(Step(w, s, act))
  {
    hide Local, Shared, AllFollow, Guard, Effect;
    StepKeepsInv(w, s, act);
    StepFollows(w.Of(act.x), w.cap, s.Of(act.x), s.Of(PeerOf(act.x)), act.op);
  }

  lemma ReachableFine(w: World, s: Sys)
    requires Reachable(w, s)
    ensures Fine(s)
  {
    hide AllFollow, Local, Shared;
    ReachableInv(w, s);
    ReachableFollows(w, s, A);
    ReachableFollows(w, s, B);
  }

  lemma FineAt(s: Sys, x: End)
    requires Fine(s)
    ensures Good(s.Of(x), s.Of(PeerOf(x))) && AllFollow(s.Of(x)) && AllFollow(s.Of(PeerOf(x)))
  {
    hide Good, AllFollow;
  }

  // ---------------------------------------------------------------- what a registration fixed

  /** A stream that exists is never replaced, and keeps what it was registered with. */
  predicate Keeps(t: Table, t': Table, k: Key)
    requires k in t.objs
  {
    k in t'.objs && t'.objs[k].base == t.objs[k].base && t'.objs[k].creator == t.objs[k].creator
  }

  lemma RequestKeepsBase(c: Config, e: Endpoint, op: RequestOp, k: Key)
    requires RequestGuard(c, e.srv, e.io.ctxDone, op) && k in e.str.objs
    requires Registers(c, e.srv, op) ==> Key(ServerSide, e.srv.reqs[op.at].req.input.streamId) !in e.str.objs
    ensures Keeps(e.str, RequestOnTable(c, e.srv, e.str, op), k)
  {
  }

  lemma StreamKeepsBase(v: Invokes, t: Table, ctxDone: bool, op: StreamOp, k: Key)
    requires StreamGuard(v, t, ctxDone, op) && k in t.objs
    ensures Keeps(t, StreamEffect(v, t, ctxDone, op), k)
  {
  }

  lemma LinkKeepsBase(cap: nat, e: Endpoint, peer: Io, op: LinkOp, k: Key)
    requires LinkGuard(cap, e.io, peer, op) && k in e.str.objs
    ensures Keeps(e.str, LinkEffect(cap, e, peer, op).str, k)
  {
    hide Deliver, DoCancel;
  }

  lemma StepKeepsBase(c: Config, cap: nat, e: Endpoint, p: Endpoint, op: Op, k: Key)
    requires Good(e, p) && Guard(c, cap, e, p.io, op) && k in e.str.objs
    ensures Keeps(e.str, Effect(c, cap, e, p.io, op).str, k)
  {
    hide Local, Shared, Keeps, RequestOnTable, StreamEffect, LinkEffect, RequestEffect;
    match op
    case OfCall(_) => KeepsItself(e.str, k);
    case OfRequest(o) =>
      if Registers(c, e.srv, o) { AcceptedStreamIsFresh(c, e, p, o.at); }
      RequestKeepsBase(c, e, o, k);
    case OfStream(o) => StreamKeepsBase(e.inv, e.str, e.io.ctxDone, o, k);
    case OfLink(o) => LinkKeepsBase(cap, e, p.io, o, k);
  }

  lemma KeepsItself(t: Table, k: Key)
    requires k in t.objs
    ensures Keeps(t, t, k)
  {
  }

  /** A run only adds packets, reads further, and never revives a context. */
  predicate Grows(io: Io, io': Io) {
    io.out <= io'.out && io.read <= io'.read && (io.ctxDone ==> io'.ctxDone)
  }

  lemma StepGrows(c: Config, cap: nat, e: Endpoint, peer: Io, op: Op)
    requires Guard(c, cap, e, peer, op)
    ensures Grows(e.io, Effect(c, cap, e, peer, op).io)
  {
    hide StreamEffect, RequestEffect, CallEffect, RequestOnTable, Dispatch, DoCancel, DoCleanup, Emits;
  }

  lemma {:induction false} RunGrows(w: World, s: Sys, acts: seq<Action>, x: End)
    requires Run(w, s, acts).Some?
    ensures Grows(s.Of(x).io, Run(w, s, acts).value.Of(x).io)
    decreases |acts|
  {
    hide Guard, Effect;
    if acts != [] {
      var act := acts[0];
      StepGrows(w.Of(act.x), w.cap, s.Of(act.x), s.Of(PeerOf(act.x)).io, act.op);
      RunGrows(w, Step(w, s, act), acts[1..], x);
    }
  }

  lemma {:induction false} RunKeepsBase(w: World, s: Sys, acts: seq<Action>, x: End, k: Key)
    requires Fine(s) && Run(w, s, acts).Some? && k in s.Of(x).str.objs
    ensures Fine(Run(w, s, acts).value) && Keeps(s.Of(x).str, Run(w, s, acts).value.Of(x).str, k)
    decreases |acts|
  {
    hide Fine, Guard, Effect;
    if acts != [] {
      var act := acts[0];
      StepKeepsFine(w, s, act);
      FineAt(s, act.x);
      if act.x == x { StepKeepsBase(w.Of(x), w.cap, s.Of(x), s.Of(PeerOf(x)), act.op, k); }
      RunKeepsBase(w, Step(w, s, act), acts[1..], x, k);
    }
  }

  lemma {:induction false} RunKeepsFine(w: World, s: Sys, acts: seq<Action>)
    requires Fine(s) && Run(w, s, acts).Some?
    ensures Fine(Run(w, s, acts).value)
    decreases |acts|
  {
    hide Fine, Guard, Effect;
    if acts != [] {
      StepKeepsFine(w, s, acts[0]);
      RunKeepsFine(w, Step(w, s, acts[0]), acts[1..]);
    }
  }

  // ---------------------------------------------------------------- what is lost before registration

  lemma SentByPrefix(ps: seq<Packet>, qs: seq<Packet>, k: Key)
    requires ps <= qs
    ensures SentBy(ps, k) <= SentBy(qs, k)
  {
    SentBySplit(qs, |ps|, k);
    assert qs[..|ps|] == ps;
  }

  /** The server end's messages the client's reader has taken. */
  function TakenOf(e: Endpoint, p: Endpoint, sid: nat): seq<StreamMsg>
    requires e.io.read <= |p.io.out|
  {
    SentBy(p.io.out[..e.io.read], Key(ServerSide, sid))
  }

  lemma DropsBeforeRegistration(e: Endpoint, p: Endpoint, sid: nat)
    requires Good(e, p)
    ensures e.io.read <= |p.io.out|
    ensures Key(ClientSide, sid) !in e.str.objs ==> SentBy(e.str.drops, Key(ServerSide, sid)) == TakenOf(e, p, sid)
    ensures Key(ClientSide, sid) in e.str.objs && Key(ClientSide, sid) in e.str.live ==>
              var dropped := SentBy(e.str.drops, Key(ServerSide, sid));
              |dropped| == e.str.objs[Key(ClientSide, sid)].base && dropped <= TakenOf(e, p, sid)
    ensures Key(ClientSide, sid) in e.str.objs ==> e.str.objs[Key(ClientSide, sid)].base <= |TakenOf(e, p, sid)|
  {
    assert RecvFits(e.str, p.io.out[..e.io.read], Key(ClientSide, sid));
    assert Mirror(Key(ClientSide, sid)) == Key(ServerSide, sid);
    hide Local, SentBy;
  }

  /** What a registration costs is settled when it happens: the messages lost, then and in every
      continuation, are exactly those the client's reader had taken by then. So nothing is lost if
      and only if it had taken none. */
  lemma LostIsWhatWasRead(w: World, s: Sys, x: End, sid: nat, acts: seq<Action>)
    requires Reachable(w, s) && Enabled(w, s, Action(x, OfStream(RegisterStream(sid))))
    requires Run(w, Step(w, s, Action(x, OfStream(RegisterStream(sid)))), acts).Some?
    requires Key(ClientSide, sid) in Run(w, Step(w, s, Action(x, OfStream(RegisterStream(sid)))),
                                         acts).value.Of(x).str.live
    ensures s.Of(x).io.read <= |s.Of(PeerOf(x)).io.out|
    ensures var t := Run(w, Step(w, s, Action(x, OfStream(RegisterStream(sid)))), acts).value;
            SentBy(t.Of(x).str.drops, Key(ServerSide, sid)) == TakenOf(s.Of(x), s.Of(PeerOf(x)), sid)
  {
    var act, ck := Action(x, OfStream(RegisterStream(sid))), Key(ClientSide, sid);
    hide Good, SentBy, Reachable, Run, Fine;
    ReachableFine(w, s);
    FineAt(s, x);
    DropsBeforeRegistration(s.Of(x), s.Of(PeerOf(x)), sid);
    Registered(w, s, x, sid);
    var s' := Step(w, s, act);
    StepKeepsFine(w, s, act);
    RunKeepsBase(w, s', acts, x, ck);
    RunGrows(w, s', acts, x);
    RunGrows(w, s', acts, PeerOf(x));
    var t := Run(w, s', acts).value;
    FineAt(t, x);
    DropsBeforeRegistration(t.Of(x), t.Of(PeerOf(x)), sid);
    SentByPrefix(s.Of(PeerOf(x)).io.out[..s.Of(x).io.read], t.Of(PeerOf(x)).io.out[..t.Of(x).io.read],
                 Key(ServerSide, sid));
  }

  lemma Registered(w: World, s: Sys, x: End, sid: nat)
    requires Enabled(w, s, Action(x, OfStream(RegisterStream(sid))))
    ensures var t := Step(w, s, Action(x, OfStream(RegisterStream(sid))));
            && Key(ClientSide, sid) !in s.Of(x).str.objs && Key(ClientSide, sid) in t.Of(x).str.objs
            && t.Of(x).str.objs[Key(ClientSide, sid)].base == |SentBy(s.Of(x).str.drops, Key(ServerSide, sid))|
            && t.Of(x).io.read == s.Of(x).io.read && t.Of(PeerOf(x)) == s.Of(PeerOf(x))
  {
    hide SentBy;
  }

  /** A handler that hears from its client before it first sends loses nothing: then the client end
      exists, and in every continuation, as long as it is registered, everything the handler sends
      is received or on its way. */
  lemma ListeningHandlerLosesNothing(w: World, s: Sys, x: End, sid: nat, acts: seq<Action>)
    requires Reachable(w, s) && Run(w, s, acts).Some?
    requires Key(ServerSide, sid) in s.Of(PeerOf(x)).str.objs
    requires s.Of(PeerOf(x)).str.objs[Key(ServerSide, sid)].sent == []
    requires s.Of(PeerOf(x)).str.objs[Key(ServerSide, sid)].received != []
    ensures var e, p := Run(w, s, acts).value.Of(x), Run(w, s, acts).value.Of(PeerOf(x));
            var ck, sk := Key(ClientSide, sid), Key(ServerSide, sid);
            && ck in e.str.objs && e.str.objs[ck].base == 0 && sk in p.str.objs && e.io.read <= |p.io.out|
            && (ck in e.str.live ==>
                  && SentBy(e.str.drops, sk) == []
                  && p.str.objs[sk].sent == e.str.objs[ck].received + InFlight(p, e.io, sk) + PendingOf(p.str.objs[sk]))
  {
    hide Good, SentBy, Reachable, Run, Fine, InFlight, PendingOf;
    ReachableFine(w, s);
    FineAt(s, x);
    FineAt(s, PeerOf(x));
    HeardBeforeSending(s.Of(x), s.Of(PeerOf(x)), sid);
    RunKeepsBase(w, s, acts, x, Key(ClientSide, sid));
    RunKeepsBase(w, s, acts, PeerOf(x), Key(ServerSide, sid));
    var t := Run(w, s, acts).value;
    FineAt(t, x);
    FineAt(t, PeerOf(x));
    NothingLost(t.Of(x), t.Of(PeerOf(x)), sid);
  }

  lemma NothingTaken(out: seq<Packet>, read: nat, k: Key)
    requires read <= |out| && SentBy(out, k) == []
    ensures SentBy(out[..read], k) == []
  {
    SentBySplit(out, read, k);
    hide SentBy;
  }

  lemma NothingSent(e: Endpoint, p: Endpoint, k: Key)
    requires Good(e, p) && k in e.str.objs && e.str.objs[k].sent == []
    ensures SentBy(e.io.out, k) == []
  {
    assert ObjOk(e.str.objs[k], k, e.io.out, e.io.ctxDone);
    hide Good, SentBy, ObjNumbered, ObjQueue, ObjClose, ObjGraceful;
  }

  lemma HeardBeforeSending(e: Endpoint, p: Endpoint, sid: nat)
    requires Good(e, p) && Good(p, e) && Key(ServerSide, sid) in p.str.objs
    requires p.str.objs[Key(ServerSide, sid)].sent == [] && p.str.objs[Key(ServerSide, sid)].received != []
    ensures Key(ClientSide, sid) in e.str.objs && e.str.objs[Key(ClientSide, sid)].base == 0
  {
    hide Good, SentBy;
    if Key(ClientSide, sid) !in e.str.objs { NothingReceived(e, p, Key(ServerSide, sid)); }
    NothingDropped(e, p, sid);
  }

  lemma NothingDropped(e: Endpoint, p: Endpoint, sid: nat)
    requires Good(e, p) && Good(p, e) && Key(ClientSide, sid) in e.str.objs && Key(ServerSide, sid) in p.str.objs
    requires p.str.objs[Key(ServerSide, sid)].sent == []
    ensures e.str.objs[Key(ClientSide, sid)].base == 0
  {
    hide Good, SentBy;
    NothingSent(p, e, Key(ServerSide, sid));
    DropsBeforeRegistration(e, p, sid);
    NothingTaken(p.io.out, e.io.read, Key(ServerSide, sid));
  }

  lemma NothingLost(e: Endpoint, p: Endpoint, sid: nat)
    requires Good(e, p) && Good(p, e) && Key(ServerSide, sid) in p.str.objs
    requires Key(ClientSide, sid) in e.str.objs && e.str.objs[Key(ClientSide, sid)].base == 0
    ensures e.io.read <= |p.io.out|
    ensures Key(ClientSide, sid) in e.str.live ==>
              var ck, sk := Key(ClientSide, sid), Key(ServerSide, sid);
              && SentBy(e.str.drops, sk) == []
              && p.str.objs[sk].sent == e.str.objs[ck].received + InFlight(p, e.io, sk) + PendingOf(p.str.objs[sk])
  {
    var ck, sk := Key(ClientSide, sid), Key(ServerSide, sid);
    hide Good, SentBy, InFlight, PendingOf;
    DropsBeforeRegistration(e, p, sid);
    if ck in e.str.live {
      SentAndReceived(p, e, ck);
      NoneBefore(SentBy(e.str.drops, sk), e.str.objs[ck].received, InFlight(p, e.io, sk), PendingOf(p.str.objs[sk]));
    }
  }

  // ---------------------------------------------------------------- streams nobody closes

  /** A stream that is open and empty, on an endpoint that reads no more and has cleaned up. */
  predicate Orphan(e: Endpoint, k: Key) {
    e.io.cleaned && !e.io.reading && k in e.str.live && k in e.str.objs && OpenAndEmpty(e.str.objs[k])
  }

  /** Its user has it, or its handler will, and nobody has begun to close it. */
  predicate OpenAndEmpty(o: Obj) {
    !Ended(o) && o.closing.None? && o.st.active && o.st.queue == []
  }

  predicate Ended(o: Obj) {
    o.owner.Ending? || o.owner.Gone?
  }

  /** The user of stream `k` closes it, or its handler returns. */
  predicate ClosesOn(op: Op, k: Key) {
    op.OfStream? && (op.stream.CloseStream? || op.stream.HandlerEnds?) && op.stream.key == k
  }

  predicate Closes(act: Action, x: End, k: Key) {
    act.x == x && ClosesOn(act.op, k)
  }

  lemma StreamKeepsEmpty(v: Invokes, t: Table, ctxDone: bool, op: StreamOp, k: Key)
    requires StreamGuard(v, t, ctxDone, op) && k in t.objs && k in t.live && OpenAndEmpty(t.objs[k])
    requires !ClosesOn(OfStream(op), k)
    ensures var t' := StreamEffect(v, t, ctxDone, op); k in t'.objs && k in t'.live && OpenAndEmpty(t'.objs[k])
    ensures !CanRecv(t, k)
  {
  }

  lemma RequestKeepsClients(c: Config, r: Requests, t: Table, op: RequestOp, k: Key)
    requires k in t.objs && k.side.ClientSide? && k in t.live
    ensures var t' := RequestOnTable(c, r, t, op); k in t'.objs && k in t'.live && t'.objs[k] == t.objs[k]
  {
  }

  /** A request that opens a stream, or starts its handler, leaves an empty stream so. */
  lemma RequestKeepsEmpty(c: Config, r: Requests, t: Table, op: RequestOp, k: Key)
    requires k in t.objs && k in t.live && OpenAndEmpty(t.objs[k])
    ensures var t' := RequestOnTable(c, r, t, op); k in t'.objs && k in t'.live && OpenAndEmpty(t'.objs[k])
  {
  }

  lemma StepKeepsOrphan(c: Config, cap: nat, e: Endpoint, peer: Io, op: Op, k: Key)
    requires Guard(c, cap, e, peer, op) && Orphan(e, k) && !ClosesOn(op, k)
    ensures Orphan(Effect(c, cap, e, peer, op), k)
  {
    hide StreamEffect, RequestEffect, CallEffect, RequestOnTable, OpenAndEmpty, Dispatch, DoCancel, DoCleanup;
    match op
    case OfCall(_) =>
    case OfRequest(o) => RequestKeepsEmpty(c, e.srv, e.str, o, k);
    case OfStream(o) => StreamKeepsEmpty(e.inv, e.str, e.io.ctxDone, o, k);
    case OfLink(o) =>
  }

  /** An orphan stays one in every continuation, unless its own user closes it or its handler
      returns, and RecvMsg on it never returns. */
  lemma {:induction false} OrphanForever(w: World, s: Sys, acts: seq<Action>, x: End, k: Key)
    requires Run(w, s, acts).Some? && Orphan(s.Of(x), k) && forall a | a in acts :: !Closes(a, x, k)
    ensures var t := Run(w, s, acts).value; Orphan(t.Of(x), k) && !Enabled(w, t, Action(x, OfStream(Recv(k))))
    decreases |acts|
  {
    hide Effect;
    if acts != [] {
      var act := acts[0];
      assert act in acts;
      if act.x == x { StepKeepsOrphan(w.Of(x), w.cap, s.Of(x), s.Of(PeerOf(x)).io, act.op, k); }
      OrphanForever(w, Step(w, s, act), acts[1..], x, k);
    }
  }

  /** In every continuation in which its user does not close it and its handler does not return,
      stream `k` is an orphan, and RecvMsg on it never returns. */
  ghost predicate OrphanedFrom(w: World, s: Sys, x: End, k: Key) {
    forall acts | Run(w, s, acts).Some? && (forall a | a in acts :: !Closes(a, x, k)) ::
      Orphan(Run(w, s, acts).value.Of(x), k) && !Enabled(w, Run(w, s, acts).value, Action(x, OfStream(Recv(k))))
  }

  lemma OrphansStay(w: World, s: Sys, x: End, k: Key)
    requires Orphan(s.Of(x), k)
    ensures OrphanedFrom(w, s, x, k)
  {
    hide Run, Orphan, Enabled;
    forall acts | Run(w, s, acts).Some? && (forall a | a in acts :: !Closes(a, x, k))
      ensures Orphan(Run(w, s, acts).value.Of(x), k) && !Enabled(w, Run(w, s, acts).value, Action(x, OfStream(Recv(k))))
    {
      OrphanForever(w, s, acts, x, k);
    }
  }

  lemma StepKeepsCleaned(c: Config, cap: nat, e: Endpoint, peer: Io, op: Op)
    requires Guard(c, cap, e, peer, op) && (e.io.cleaned ==> !e.io.reading)
    ensures var e' := Effect(c, cap, e, peer, op); e'.io.cleaned ==> !e'.io.reading
  {
    hide StreamEffect, RequestEffect, CallEffect, RequestOnTable, Dispatch, DoCancel, DoCleanup;
  }

  lemma {:induction false} RunKeepsCleaned(w: World, s: Sys, acts: seq<Action>, x: End)
    requires Run(w, s, acts).Some? && (s.Of(x).io.cleaned ==> !s.Of(x).io.reading)
    ensures Run(w, s, acts).value.Of(x).io.cleaned ==> !Run(w, s, acts).value.Of(x).io.reading
    decreases |acts|
  {
    hide Effect, Guard;
    if acts != [] {
      var act := acts[0];
      if act.x == x { StepKeepsCleaned(w.Of(x), w.cap, s.Of(x), s.Of(PeerOf(x)).io, act.op); }
      RunKeepsCleaned(w, Step(w, s, act), acts[1..], x);
    }
  }

  /** The stream a step registers, at a request to open one or at the end of NewStream. */
  function Registering(c: Config, e: Endpoint, op: Op): Option<Key> {
    match op
    case OfStream(RegisterStream(sid)) => Some(Key(ClientSide, sid))
    case OfRequest(o) =>
      if Registers(c, e.srv, o) then Some(Key(ServerSide, e.srv.reqs[o.at].req.input.streamId)) else None
    case _ => None
  }

  /** Every stream registered after cleanup, by NewStream or for an incoming request, is an orphan:
      it stays open and registered in every continuation in which its user does not close it and
      its handler does not return. */
  lemma LateStreamIsOrphan(w: World, s: Sys, act: Action)
    requires Reachable(w, s) && s.Of(act.x).io.cleaned && Enabled(w, s, act)
    requires Registering(w.Of(act.x), s.Of(act.x), act.op).Some?
    ensures OrphanedFrom(w, Step(w, s, act), act.x, Registering(w.Of(act.x), s.Of(act.x), act.op).value)
  {
    var before: seq<Action> :| Run(w, INIT, before) == Some(s);
    RunKeepsCleaned(w, INIT, before, act.x);
    hide Run, Reachable, OrphanedFrom, Registering;
    RegistersOrphan(w, s, act);
    OrphansStay(w, Step(w, s, act), act.x, Registering(w.Of(act.x), s.Of(act.x), act.op).value);
  }

  lemma RegistersOrphan(w: World, s: Sys, act: Action)
    requires Enabled(w, s, act) && s.Of(act.x).io.cleaned && !s.Of(act.x).io.reading
    requires Registering(w.Of(act.x), s.Of(act.x), act.op).Some?
    ensures Orphan(Step(w, s, act).Of(act.x), Registering(w.Of(act.x), s.Of(act.x), act.op).value)
  {
    hide SentBy;
  }

  // ---------------------------------------------------------------- a server end whose handler has returned

  /** Nothing restarts a handler, and once the close is on its way nothing more is sent. */
  predicate StaysEnded(t: Table, t': Table, k: Key, ctxDone: bool)
    requires k in t.objs
  {
    && k in t'.objs && Ended(t'.objs[k]) && t'.objs[k].closing.None?
    && (t.objs[k].pending.None? || !ctxDone ==> t'.objs[k].sent == t.objs[k].sent)
    && (t.objs[k].pending.None? ==> t'.objs[k].pending.None?)
  }

  lemma StreamStepStaysEnded(v: Invokes, t: Table, ctxDone: bool, op: StreamOp, k: Key)
    requires StreamGuard(v, t, ctxDone, op) && k in t.objs && Ended(t.objs[k]) && t.objs[k].closing.None?
    ensures StaysEnded(t, StreamEffect(v, t, ctxDone, op), k, ctxDone)
  {
  }

  lemma LinkStepStaysEnded(cap: nat, e: Endpoint, peer: Io, op: LinkOp, k: Key)
    requires LinkGuard(cap, e.io, peer, op) && k in e.str.objs && Ended(e.str.objs[k]) && e.str.objs[k].closing.None?
    ensures StaysEnded(e.str, LinkEffect(cap, e, peer, op).str, k, e.io.ctxDone)
  {
    hide Deliver, DoCancel;
  }

  lemma RequestLeavesEnded(c: Config, e: Endpoint, p: Endpoint, op: RequestOp, k: Key)
    requires Good(e, p) && AllFollow(e) && RequestGuard(c, e.srv, e.io.ctxDone, op)
    requires k in e.str.objs && k.side.ServerSide? && Ended(e.str.objs[k])
    ensures k in RequestOnTable(c, e.srv, e.str, op).objs
    ensures RequestOnTable(c, e.srv, e.str, op).objs[k] == e.str.objs[k]
  {
    hide Local, Shared, Follows, AllFollow, RequestGuard, CanRespond, Registers;
    CreatorIsKnown(e, k);
    if Responds(op) {
      CanRespondNow(c, e.srv, e.io.ctxDone, op);
      FollowsAt(e, k);
      RespondingNotStarted(e, k);
      StartsItsOwn(e, p, op.at, k);
    }
    if Registers(c, e.srv, op) { RegisteredIsNew(c, e, p, op); }
    OnlyItsOwnStream(c, e.srv, e.str, op, k);
  }

  lemma RespondingNotStarted(e: Endpoint, k: Key)
    requires k in e.str.objs && k.side.ServerSide? && e.str.objs[k].creator in e.srv.reqs && Ended(e.str.objs[k])
    requires Follows(e.srv, e.str, e.io.out, e.io.ctxDone, k)
    ensures !CanRespond(e.srv, e.str.objs[k].creator)
  {
  }

  lemma OnlyItsOwnStream(c: Config, r: Requests, t: Table, op: RequestOp, k: Key)
    requires k in t.objs
    requires Responds(op) && op.at in r.reqs && r.reqs[op.at].req.service == ""
             && r.reqs[op.at].req.input.OpenStream? ==>
               k != Key(ServerSide, r.reqs[op.at].req.input.streamId)
    requires Registers(c, r, op) ==> k != Key(ServerSide, r.reqs[op.at].req.input.streamId)
    ensures k in RequestOnTable(c, r, t, op).objs && RequestOnTable(c, r, t, op).objs[k] == t.objs[k]
  {
  }

  lemma StepStaysEnded(c: Config, cap: nat, e: Endpoint, p: Endpoint, op: Op, k: Key)
    requires Good(e, p) && AllFollow(e) && Guard(c, cap, e, p.io, op)
    requires k in e.str.objs && k.side.ServerSide? && Ended(e.str.objs[k]) && e.str.objs[k].closing.None?
    ensures StaysEnded(e.str, Effect(c, cap, e, p.io, op).str, k, e.io.ctxDone)
  {
    hide Local, Shared, AllFollow, RequestOnTable, StreamEffect, LinkEffect, RequestEffect;
    match op
    case OfCall(_) =>
    case OfRequest(o) => RequestLeavesEnded(c, e, p, o, k);
    case OfStream(o) => StreamStepStaysEnded(e.inv, e.str, e.io.ctxDone, o, k);
    case OfLink(o) => LinkStepStaysEnded(cap, e, p.io, o, k);
  }

  // ---------------------------------------------------------------- the end of a handler reaches the peer

  /** The handler of `o` has returned: it has sent `before` and then this close, or is about to. */
  predicate Concludes(o: Obj, before: seq<StreamMsg>, payload: Payload) {
    && Ended(o)
    && (|| (o.closing == Some(payload) && o.pending.None? && o.sent == before)
        || (o.closing.None? && |o.sent| == |before| + 1 && o.sent[..|before|] == before
            && o.sent[|before|].payload == payload))
  }

  /** What a handler's result tells the peer. */
  function Farewell(how: HandlerEnd): Payload
    requires !how.SawClosed?
  {
    match how
    case WithError(text) => Close(2, text)
    case WithNil => Close(0, "")
  }

  lemma EndConcludes(o: Obj, how: HandlerEnd)
    requires Idle(o) && !how.SawClosed? && (how.WithNil? ==> o.st.active)
    ensures Concludes(DoEndHandler(o, how), o.sent, Farewell(how))
  {
  }

  lemma FinishConcludes(v: Invokes, t: Table, ctxDone: bool, op: StreamOp, k: Key, before: seq<StreamMsg>,
                        payload: Payload)
    requires StreamGuard(v, t, ctxDone, op) && k in t.objs
    requires Concludes(t.objs[k], before, payload) && t.objs[k].closing.Some?
    ensures k in StreamEffect(v, t, ctxDone, op).objs
    ensures Concludes(StreamEffect(v, t, ctxDone, op).objs[k], before, payload)
  {
  }

  lemma LinkConcludes(cap: nat, e: Endpoint, peer: Io, op: LinkOp, k: Key, before: seq<StreamMsg>, payload: Payload)
    requires LinkGuard(cap, e.io, peer, op) && k in e.str.objs && Concludes(e.str.objs[k], before, payload)
    ensures var t := LinkEffect(cap, e, peer, op).str; k in t.objs && Concludes(t.objs[k], before, payload)
  {
    hide Deliver, DoCancel;
  }

  lemma StepConcludes(c: Config, cap: nat, e: Endpoint, p: Endpoint, op: Op, k: Key, before: seq<StreamMsg>,
                      payload: Payload)
    requires Good(e, p) && AllFollow(e) && Guard(c, cap, e, p.io, op) && !e.io.ctxDone
    requires k in e.str.objs && k.side.ServerSide? && Concludes(e.str.objs[k], before, payload)
    ensures var t := Effect(c, cap, e, p.io, op).str; k in t.objs && Concludes(t.objs[k], before, payload)
  {
    hide Local, Shared, AllFollow, RequestOnTable, StreamEffect, LinkEffect, RequestEffect;
    match op
    case OfCall(_) =>
    case OfRequest(o) => RequestLeavesEnded(c, e, p, o, k);
    case OfStream(o) =>
      if e.str.objs[k].closing.Some? { FinishConcludes(e.inv, e.str, e.io.ctxDone, o, k, before, payload); }
      else { StreamStepStaysEnded(e.inv, e.str, e.io.ctxDone, o, k); }
    case OfLink(o) => LinkConcludes(cap, e, p.io, o, k, before, payload);
  }

  lemma {:induction false} RunConcludes(w: World, s: Sys, acts: seq<Action>, x: End, k: Key, before: seq<StreamMsg>,
                                        payload: Payload)
    requires Fine(s) && Run(w, s, acts).Some? && !Run(w, s, acts).value.Of(x).io.ctxDone
    requires k in s.Of(x).str.objs && k.side.ServerSide? && Concludes(s.Of(x).str.objs[k], before, payload)
    ensures var t := Run(w, s, acts).value.Of(x).str; k in t.objs && Concludes(t.objs[k], before, payload)
    decreases |acts|
  {
    hide Fine, Guard, Effect, Concludes, AllFollow, Good;
    RunGrows(w, s, acts, x);
    if acts != [] {
      var act := acts[0];
      StepKeepsFine(w, s, act);
      FineAt(s, act.x);
      if act.x == x { StepConcludes(w.Of(x), w.cap, s.Of(x), s.Of(PeerOf(x)), act.op, k, before, payload); }
      RunConcludes(w, Step(w, s, act), acts[1..], x, k, before, payload);
    }
  }

  /** The client end `o` against a server end that sent `before` and then a close with `text`. */
  ghost predicate HeardTheEnd(o: Obj, before: seq<StreamMsg>, text: string) {
    && (!o.st.active <==> o.base <= |before|)
    && (o.base <= |before| ==>
          && o.st.remoteError == text
          && DataOf(o.received) == DataOf(before[o.base..])
          && Graceful(o.outcomes, DataOf(before[o.base..]), Some(text)))
  }

  /** What a handler returns reaches the client. Let the handler of an open stream return an error,
      or nil. In every continuation in which its endpoint's context is alive, the client end is
      registered and not closed by its own side, and everything the server end sent has arrived:
      the client end is closed if and only if its registration did not come after the close was
      taken; then it is closed with the handler's error text, it received exactly what the
      handler had sent since the registration, and that is what RecvMsg returns before the error.
      A client registered before the handler returned is never too late. */
  lemma HandlerEndReachesPeer(w: World, s: Sys, x: End, sid: nat, how: HandlerEnd, acts: seq<Action>)
    requires Reachable(w, s) && !how.SawClosed?
    requires Enabled(w, s, Action(PeerOf(x), OfStream(HandlerEnds(Key(ServerSide, sid), how))))
    requires s.Of(PeerOf(x)).str.objs[Key(ServerSide, sid)].st.active
    requires Run(w, Step(w, s, Action(PeerOf(x), OfStream(HandlerEnds(Key(ServerSide, sid), how)))), acts).Some?
    requires var t := Run(w, Step(w, s, Action(PeerOf(x), OfStream(HandlerEnds(Key(ServerSide, sid), how)))),
                          acts).value;
             var ck, sk := Key(ClientSide, sid), Key(ServerSide, sid);
             && !t.Of(PeerOf(x)).io.ctxDone && ck in t.Of(x).str.live && ck in t.Of(x).str.objs
             && !t.Of(x).str.objs[ck].closedLocally && t.Of(x).io.read <= |t.Of(PeerOf(x)).io.out|
             && InFlight(t.Of(PeerOf(x)), t.Of(x).io, sk) == []
             && sk in t.Of(PeerOf(x)).str.objs && Idle(t.Of(PeerOf(x)).str.objs[sk])
    ensures var t := Run(w, Step(w, s, Action(PeerOf(x), OfStream(HandlerEnds(Key(ServerSide, sid), how)))),
                         acts).value;
            && HeardTheEnd(t.Of(x).str.objs[Key(ClientSide, sid)], s.Of(PeerOf(x)).str.objs[Key(ServerSide, sid)].sent,
                           Farewell(how).error)
            && (Key(ClientSide, sid) in s.Of(x).str.objs ==> !t.Of(x).str.objs[Key(ClientSide, sid)].st.active)
  {
    var y, ck, sk := PeerOf(x), Key(ClientSide, sid), Key(ServerSide, sid);
    var before, payload := s.Of(y).str.objs[sk].sent, Farewell(how);
    hide Good, Reachable, Run, Fine, InFlight, SentBy, Enabled, Step, Concludes, HeardTheEnd, AllFollow;
    HandlerConcludes(w, s, x, sid, how, acts);
    var s' := Step(w, s, Action(y, OfStream(HandlerEnds(sk, how))));
    var t := Run(w, s', acts).value;
    HearsTheEndIn(t, x, sid, before, payload);
    if ck in s.Of(x).str.objs {
      ReachableFine(w, s);
      OtherSideSame(w, s, Action(y, OfStream(HandlerEnds(sk, how))));
      BaseInTime(w, s, s', acts, x, sid);
      HeardInTime(t.Of(x).str.objs[ck], before, payload.error);
    }
  }

  lemma HearsTheEndIn(t: Sys, x: End, sid: nat, before: seq<StreamMsg>, payload: Payload)
    requires Fine(t) && payload.Close? && forall m | m in before :: m.payload.Data?
    requires var e, p, ck, sk := t.Of(x), t.Of(PeerOf(x)), Key(ClientSide, sid), Key(ServerSide, sid);
             && ck in e.str.live && ck in e.str.objs && sk in p.str.objs && !e.str.objs[ck].closedLocally
             && e.io.read <= |p.io.out| && InFlight(p, e.io, sk) == [] && Idle(p.str.objs[sk])
             && Concludes(p.str.objs[sk], before, payload)
    ensures HeardTheEnd(t.Of(x).str.objs[Key(ClientSide, sid)], before, payload.error)
  {
    hide Good, Fine, InFlight, SentBy, Concludes, HeardTheEnd, AllFollow, Idle;
    FineAt(t, x);
    FineAt(t, PeerOf(x));
    HearsTheEnd(t.Of(x), t.Of(PeerOf(x)), sid, before, payload);
  }

  /** A client end that is registered keeps a base within what the server end had sent by then. */
  lemma BaseInTime(w: World, s: Sys, s': Sys, acts: seq<Action>, x: End, sid: nat)
    requires Fine(s) && Fine(s') && s'.Of(x) == s.Of(x) && Run(w, s', acts).Some?
    requires Key(ClientSide, sid) in s.Of(x).str.objs && Key(ServerSide, sid) in s.Of(PeerOf(x)).str.objs
    ensures var t, ck := Run(w, s', acts).value, Key(ClientSide, sid);
            ck in t.Of(x).str.objs && t.Of(x).str.objs[ck].base <= |s.Of(PeerOf(x)).str.objs[Key(ServerSide, sid)].sent|
  {
    hide Good, Fine, Run, AllFollow;
    FineAt(s, x);
    RunKeepsBase(w, s', acts, x, Key(ClientSide, sid));
    RegisteredInTime(s.Of(x), s.Of(PeerOf(x)), sid);
  }

  lemma HandlerConcludes(w: World, s: Sys, x: End, sid: nat, how: HandlerEnd, acts: seq<Action>)
    requires Reachable(w, s) && !how.SawClosed?
    requires Enabled(w, s, Action(PeerOf(x), OfStream(HandlerEnds(Key(ServerSide, sid), how))))
    requires s.Of(PeerOf(x)).str.objs[Key(ServerSide, sid)].st.active
    requires Run(w, Step(w, s, Action(PeerOf(x), OfStream(HandlerEnds(Key(ServerSide, sid), how)))), acts).Some?
    requires !Run(w, Step(w, s, Action(PeerOf(x), OfStream(HandlerEnds(Key(ServerSide, sid), how)))), acts)
              .value.Of(PeerOf(x)).io.ctxDone
    ensures var s' := Step(w, s, Action(PeerOf(x), OfStream(HandlerEnds(Key(ServerSide, sid), how))));
            var t, before := Run(w, s', acts).value, s.Of(PeerOf(x)).str.objs[Key(ServerSide, sid)].sent;
            && Fine(s') && Fine(t) && (forall m | m in before :: m.payload.Data?)
            && Key(ServerSide, sid) in t.Of(PeerOf(x)).str.objs
            && Concludes(t.Of(PeerOf(x)).str.objs[Key(ServerSide, sid)], before, Farewell(how))
  {
    var y, sk := PeerOf(x), Key(ServerSide, sid);
    var act := Action(y, OfStream(HandlerEnds(sk, how)));
    hide Good, Reachable, Run, Fine, Enabled, Step, Concludes, AllFollow, DoEndHandler;
    ReachableFine(w, s);
    FineAt(s, y);
    EndIsStep(w, s, y, sk, how);
    HandlerIsIdle(w, s, y, sk, how);
    EndConcludes(s.Of(y).str.objs[sk], how);
    StepKeepsFine(w, s, act);
    RunConcludes(w, Step(w, s, act), acts, y, sk, s.Of(y).str.objs[sk].sent, Farewell(how));
    RunKeepsFine(w, Step(w, s, act), acts);
    SentBeforeClose(s.Of(y), s.Of(x), sk);
  }

  lemma {:induction false} RunStaysEnded(w: World, s: Sys, acts: seq<Action>, x: End, k: Key)
    requires Fine(s) && Run(w, s, acts).Some? && !Run(w, s, acts).value.Of(x).io.ctxDone
    requires k in s.Of(x).str.objs && k.side.ServerSide? && Ended(s.Of(x).str.objs[k])
    requires s.Of(x).str.objs[k].closing.None?
    ensures var t := Run(w, s, acts).value.Of(x).str; k in t.objs && t.objs[k].sent == s.Of(x).str.objs[k].sent
    decreases |acts|
  {
    hide Fine, Guard, Effect, AllFollow, Good, Ended;
    RunGrows(w, s, acts, x);
    if acts != [] {
      var act := acts[0];
      StepKeepsFine(w, s, act);
      FineAt(s, act.x);
      if act.x == x { StepStaysEnded(w.Of(x), w.cap, s.Of(x), s.Of(PeerOf(x)), act.op, k); }
      RunStaysEnded(w, Step(w, s, act), acts[1..], x, k);
    }
  }

  lemma EndIsSilent(o: Obj, how: HandlerEnd)
    requires Idle(o) && (how.SawClosed? || (how.WithNil? && !o.st.active))
    ensures var o' := DoEndHandler(o, how); Ended(o') && o'.closing.None? && o'.sent == o.sent
  {
  }

  /** A handler that returns the close error, or nil on a closed stream, sends nothing more. */
  lemma SilentEnd(w: World, s: Sys, x: End, k: Key, how: HandlerEnd, acts: seq<Action>)
    requires Reachable(w, s) && Enabled(w, s, Action(x, OfStream(HandlerEnds(k, how))))
    requires how.SawClosed? || (how.WithNil? && !s.Of(x).str.objs[k].st.active)
    requires Run(w, Step(w, s, Action(x, OfStream(HandlerEnds(k, how)))), acts).Some?
    requires !Run(w, Step(w, s, Action(x, OfStream(HandlerEnds(k, how)))), acts).value.Of(x).io.ctxDone
    ensures var t := Run(w, Step(w, s, Action(x, OfStream(HandlerEnds(k, how)))), acts).value.Of(x).str;
            k in t.objs && t.objs[k].sent == s.Of(x).str.objs[k].sent
  {
    hide Good, Reachable, Run, Fine, Enabled, Step, AllFollow, DoEndHandler;
    ReachableFine(w, s);
    EndIsStep(w, s, x, k, how);
    HandlerIsIdle(w, s, x, k, how);
    EndIsSilent(s.Of(x).str.objs[k], how);
    StepKeepsFine(w, s, Action(x, OfStream(HandlerEnds(k, how))));
    RunStaysEnded(w, Step(w, s, Action(x, OfStream(HandlerEnds(k, how)))), acts, x, k);
  }

  lemma HeardInTime(o: Obj, before: seq<StreamMsg>, text: string)
    requires HeardTheEnd(o, before, text) && o.base <= |before|
    ensures !o.st.active
  {
  }

  lemma OtherSideSame(w: World, s: Sys, act: Action)
    requires Enabled(w, s, act)
    ensures Step(w, s, act).Of(PeerOf(act.x)) == s.Of(PeerOf(act.x))
  {
    hide Guard, Effect;
  }

  lemma HandlerIsIdle(w: World, s: Sys, x: End, k: Key, how: HandlerEnd)
    requires Enabled(w, s, Action(x, OfStream(HandlerEnds(k, how))))
    ensures k in s.Of(x).str.objs && k.side.ServerSide? && Idle(s.Of(x).str.objs[k])
  {
  }

  lemma RegisteredInTime(e: Endpoint, p: Endpoint, sid: nat)
    requires Good(e, p) && Key(ClientSide, sid) in e.str.objs && Key(ServerSide, sid) in p.str.objs
    ensures e.str.objs[Key(ClientSide, sid)].base <= |p.str.objs[Key(ServerSide, sid)].sent|
  {
    var sk := Key(ServerSide, sid);
    assert ObjOk(p.str.objs[sk], sk, p.io.out, p.io.ctxDone);
    hide Good, SentBy;
    DropsBeforeRegistration(e, p, sid);
    SentByPrefix(p.io.out[..e.io.read], p.io.out, sk);
  }

  lemma HearsTheEnd(e: Endpoint, p: Endpoint, sid: nat, before: seq<StreamMsg>, payload: Payload)
    requires Good(e, p) && Good(p, e) && payload.Close? && forall m | m in before :: m.payload.Data?
    requires Key(ClientSide, sid) in e.str.live && Key(ClientSide, sid) in e.str.objs
    requires Key(ServerSide, sid) in p.str.objs
    requires !e.str.objs[Key(ClientSide, sid)].closedLocally && e.io.read <= |p.io.out|
    requires InFlight(p, e.io, Key(ServerSide, sid)) == [] && Idle(p.str.objs[Key(ServerSide, sid)])
    requires Concludes(p.str.objs[Key(ServerSide, sid)], before, payload)
    ensures HeardTheEnd(e.str.objs[Key(ClientSide, sid)], before, payload.error)
  {
    var ck, sk := Key(ClientSide, sid), Key(ServerSide, sid);
    hide Good, InFlight, SentBy, DataOf, FirstClose, Graceful, ClosesLast, GotsOf;
    CloseKeepsData(e, p, ck);
    var o, sent := e.str.objs[ck], p.str.objs[sk].sent;
    assert Mirror(ck) == sk && o.received == sent[o.base..];
    assert sent == before + [sent[|before|]];
    if o.base <= |before| {
      assert sent[o.base..] == before[o.base..] + [sent[|before|]];
      FirstCloseIsLast(before[o.base..], sent[|before|]);
    } else {
      NoClose(sent[o.base..]);
    }
  }

  lemma NoClose(ms: seq<StreamMsg>)
    requires ms == []
    ensures FirstClose(ms) == None
  {
  }

  // ---------------------------------------------------------------- a client end that never hears of the end

  /** The client end is open and empty, the server end has ended, and nothing of it is unread. */
  ghost predicate Forgotten(e: Endpoint, p: Endpoint, sid: nat) {
    var ck, sk := Key(ClientSide, sid), Key(ServerSide, sid);
    && ck in e.str.live && ck in e.str.objs && OpenAndEmpty(e.str.objs[ck])
    && sk in p.str.objs && Ended(p.str.objs[sk]) && Idle(p.str.objs[sk])
    && e.io.read <= |p.io.out| && SentBy(p.io.out[e.io.read..], sk) == []
  }

  lemma ReadOthersKeeps(e: Endpoint, out: seq<Packet>, sid: nat)
    requires e.io.read < |out| && SentBy(out[e.io.read..], Key(ServerSide, sid)) == []
    requires Key(ClientSide, sid) in e.str.live && Key(ClientSide, sid) in e.str.objs
    ensures var e' := DoRead(e, out[e.io.read]); var ck := Key(ClientSide, sid);
            && ck in e'.str.live && ck in e'.str.objs && e'.str.objs[ck] == e.str.objs[ck]
            && e'.io.read == e.io.read + 1
            && SentBy(out[e.io.read + 1..], Key(ServerSide, sid)) == []
  {
    var sk, rest := Key(ServerSide, sid), out[e.io.read..];
    if rest[0].StreamPacket? && SenderKey(rest[0].msg) == sk { SentByHas(rest, 0, sk); }
    SentBySplit(rest, 1, sk);
    assert rest[1..] == out[e.io.read + 1..];
    hide SentBy, Deliver;
  }

  lemma ClientStepKeepsForgotten(c: Config, cap: nat, e: Endpoint, p: Endpoint, op: Op, sid: nat)
    requires Guard(c, cap, e, p.io, op) && Forgotten(e, p, sid) && op != OfLink(Cleanup)
    requires !ClosesOn(op, Key(ClientSide, sid))
    ensures Forgotten(Effect(c, cap, e, p.io, op), p, sid)
  {
    var ck := Key(ClientSide, sid);
    hide StreamEffect, RequestEffect, CallEffect, RequestOnTable, OpenAndEmpty, DoCleanup, SentBy, DoRead, Ended;
    match op
    case OfCall(_) =>
    case OfRequest(o) => RequestKeepsClients(c, e.srv, e.str, o, ck);
    case OfStream(o) => StreamKeepsEmpty(e.inv, e.str, e.io.ctxDone, o, ck);
    case OfLink(o) => if o.Read? { ReadOthersKeeps(e, p.io.out, sid); }
  }

  /** The packets the server end's endpoint hands over are of other streams. */
  lemma EmitsOthers(c: Config, cap: nat, p: Endpoint, e: Endpoint, op: Op, sk: Key)
    requires Good(p, e) && Guard(c, cap, p, e.io, op) && sk in p.str.objs && Idle(p.str.objs[sk])
    ensures |Emits(p, op)| <= 1
    ensures forall q | q in Emits(p, op) && q.StreamPacket? :: SenderKey(q.msg) != sk
    ensures Effect(c, cap, p, e.io, op).io.out == p.io.out + Emits(p, op)
  {
    hide Local, Shared, Effect, CallEmits, RequestEmits;
    EffectEmits(c, cap, p, e.io, op);
    EmitsAtMostOne(p, op);
    if op.OfStream? && op.stream.FlushStream? { PendingIsOwn(p, e, op.stream.key); }
  }

  lemma EffectEmits(c: Config, cap: nat, e: Endpoint, peer: Io, op: Op)
    requires Guard(c, cap, e, peer, op)
    ensures Effect(c, cap, e, peer, op).io.out == e.io.out + Emits(e, op)
  {
    hide StreamEffect, RequestEffect, CallEffect, RequestOnTable, Dispatch, DoCancel;
    hide DoCleanup, CallEmits, RequestEmits, StreamEmits;
  }

  lemma EmitsAtMostOne(e: Endpoint, op: Op)
    ensures |Emits(e, op)| <= 1
    ensures (exists q :: q in Emits(e, op) && q.StreamPacket?) ==> op.OfStream? && op.stream.FlushStream?
  {
  }

  lemma PendingIsOwn(e: Endpoint, p: Endpoint, k: Key)
    requires Good(e, p) && CanFlush(e.str, k)
    ensures SenderKey(e.str.objs[k].pending.value) == k
  {
    assert ObjOk(e.str.objs[k], k, e.io.out, e.io.ctxDone);
  }

  lemma AppendOthers(out: seq<Packet>, ps: seq<Packet>, read: nat, sk: Key)
    requires read <= |out| && |ps| <= 1 && SentBy(out[read..], sk) == []
    requires forall q | q in ps && q.StreamPacket? :: SenderKey(q.msg) != sk
    ensures SentBy((out + ps)[read..], sk) == []
  {
    assert (out + ps)[read..] == out[read..] + ps;
    if ps != [] {
      assert ps == [ps[0]] && ps[0] in ps;
      SentByAppend(out[read..], ps[0], sk);
    } else {
      assert out[read..] + ps == out[read..];
    }
    hide SentBy;
  }

  lemma ServerStepKeepsForgotten(c: Config, cap: nat, e: Endpoint, p: Endpoint, op: Op, sid: nat)
    requires Good(p, e) && AllFollow(p) && Guard(c, cap, p, e.io, op) && Forgotten(e, p, sid)
    ensures Forgotten(e, Effect(c, cap, p, e.io, op), sid)
  {
    var sk := Key(ServerSide, sid);
    hide Good, AllFollow, Guard, Effect, Emits, OpenAndEmpty, SentBy, Ended;
    StepStaysEnded(c, cap, p, e, op, sk);
    EmitsOthers(c, cap, p, e, op, sk);
    AppendOthers(p.io.out, Emits(p, op), e.io.read, sk);
  }

  /** In every continuation in which the client's user does not close the stream and the connection
      is not cleaned up, the client end stays open and empty and RecvMsg on it never returns. */
  lemma {:induction false} ForgottenForever(w: World, s: Sys, acts: seq<Action>, x: End, sid: nat)
    requires Fine(s) && Run(w, s, acts).Some? && Forgotten(s.Of(x), s.Of(PeerOf(x)), sid)
    requires forall a | a in acts :: !Closes(a, x, Key(ClientSide, sid)) && a != Action(x, OfLink(Cleanup))
    ensures var t := Run(w, s, acts).value;
            Forgotten(t.Of(x), t.Of(PeerOf(x)), sid) && !Enabled(w, t, Action(x, OfStream(Recv(Key(ClientSide, sid)))))
    decreases |acts|
  {
    hide Fine, Good, AllFollow, Effect, SentBy, Ended;
    if acts != [] {
      var act := acts[0];
      assert act in acts;
      StepKeepsFine(w, s, act);
      FineAt(s, act.x);
      assert forall a | a in acts[1..] :: a in acts;
      if act.x == x { ClientStepKeepsForgotten(w.Of(x), w.cap, s.Of(x), s.Of(PeerOf(x)), act.op, sid); }
      else { ServerStepKeepsForgotten(w.Of(act.x), w.cap, s.Of(x), s.Of(act.x), act.op, sid); }
      ForgottenForever(w, Step(w, s, act), acts[1..], x, sid);
    }
  }

  ghost predicate ForgottenFrom(w: World, s: Sys, x: End, sid: nat) {
    forall acts |
      Run(w, s, acts).Some?
      && (forall a | a in acts :: !Closes(a, x, Key(ClientSide, sid)) && a != Action(x, OfLink(Cleanup))) ::
      Forgotten(Run(w, s, acts).value.Of(x), Run(w, s, acts).value.Of(PeerOf(x)), sid) &&
      !Enabled(w, Run(w, s, acts).value, Action(x, OfStream(Recv(Key(ClientSide, sid)))))
  }

  lemma ForgottenStays(w: World, s: Sys, x: End, sid: nat)
    requires Fine(s) && Forgotten(s.Of(x), s.Of(PeerOf(x)), sid)
    ensures ForgottenFrom(w, s, x, sid)
  {
    hide Run, Forgotten, Enabled, Fine;
    forall acts | Run(w, s, acts).Some? &&
                  (forall a | a in acts :: !Closes(a, x, Key(ClientSide, sid)) && a != Action(x, OfLink(Cleanup)))
      ensures Forgotten(Run(w, s, acts).value.Of(x), Run(w, s, acts).value.Of(PeerOf(x)), sid) &&
              !Enabled(w, Run(w, s, acts).value, Action(x, OfStream(Recv(Key(ClientSide, sid)))))
    {
      ForgottenForever(w, s, acts, x, sid);
    }
  }
}
