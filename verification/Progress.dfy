/** Every call completes: internal steps use up a measure, and as long as a call is pending one
    of them can run. */
module Progress {
  import opened Packets
  import opened Protocol
  import opened CallInvariants
  import opened WireInvariants
  import opened StreamInvariants
  import opened Invariants
  import opened Deadlock
  import opened Liveness
  import opened Sums

  // ---------------------------------------------------------------- the measure

  function CallRank(c: Call): nat {
    match c.pc
    case Fresh => 18
    case RegLock => 17
    case Registered => 16
    case Handed => 4
    case Waiting => 3
    case Cancelling => 3
    case Leaving(_) => 2
    case DelLock(_) => 1
    case Returned(_) => 0
  }

  function OpenRank(o: Opening): nat { if o.NeedInvoke? then 20 else 0 }

  function RespRank(r: Resp): nat {
    match r.pc
    case Arrived => 2
    case Sending => 1
    case _ => 0
  }

  function ReqRank(q: Req): nat {
    match q.pc
    case Started => 9
    case Running => 8
    case Ran => 7
    case Responding(_, _) => 6
    case Removing => 1
    case Finished => 0
  }

  function ObjRank(o: Obj): nat {
    (if o.pending.Some? then 3 else 0) + (if o.closing.Some? then 4 else 0) + (if o.owner.Ending? then 1 else 0)
  }

  /** What reading a packet sets in motion. */
  function PacketRank(p: Packet): nat {
    match p
    case Request(_) => 10
    case Response(_, _, _) => 3
    case _ => 1
  }

  /** NewStream calls whose stream is not registered yet. */
  ghost function Unregistered(e: Endpoint): set<nat> {
    set sid | sid in e.inv.opens && Key(ClientSide, sid) !in e.str.objs
  }

  ghost function CallWork(v: Invokes): nat {
    MapSum(v.calls, CallRank) + MapSum(v.opens, OpenRank) + MapSum(v.resps, RespRank)
  }

  ghost function RequestWork(r: Requests): nat { MapSum(r.reqs, ReqRank) }

  ghost function StreamWork(t: Table): nat { MapSum(t.objs, ObjRank) }

  /** Packets not written yet, and packets not read yet. */
  ghost function WireWork(io: Io, peerRead: nat): nat
    requires io.written <= |io.out| && peerRead <= |io.out|
  {
    |io.out| - io.written + SeqSum(io.out[peerRead..], PacketRank)
  }

  ghost function Work(e: Endpoint, peerRead: nat): nat
    requires e.io.written <= |e.io.out| && peerRead <= |e.io.out|
  {
    CallWork(e.inv) + RequestWork(e.srv) + StreamWork(e.str) + |Unregistered(e)| + WireWork(e.io, peerRead)
  }

  ghost function Measure(s: Sys): nat
    requires WireOk(s.a.io, s.b.io) && WireOk(s.b.io, s.a.io)
  {
    Work(s.a, s.b.io.read) + Work(s.b, s.a.io.read)
  }

  // ---------------------------------------------------------------- what each group of steps uses up

  function PacketsRank(ps: seq<Packet>): nat
    requires |ps| <= 1
  {
    if ps == [] then 0 else PacketRank(ps[0]) + 1
  }

  lemma EmitCosts(io: Io, ps: seq<Packet>, peerRead: nat)
    requires io.written <= |io.out| && peerRead <= |io.out| && |ps| <= 1
    ensures WireWork(Emit(io, ps), peerRead) == WireWork(io, peerRead) + PacketsRank(ps)
  {
    if ps == [] {
      assert io.out + ps == io.out;
    } else {
      assert ps == [ps[0]] && (io.out + ps)[peerRead..] == io.out[peerRead..] + [ps[0]];
      SeqSumAppend(io.out[peerRead..], PacketRank, ps[0]);
    }
  }

  lemma OpenInvokeUses(v: Invokes, sid: nat)
    requires sid in v.opens && v.opens[sid].NeedInvoke? && v.lastId + 1 !in v.calls
    ensures CallWork(DoOpenInvoke(v, sid)) < CallWork(v)
  {
    var w := DoOpenInvoke(v, sid);
    var rid: nat := v.lastId + 1;
    MapSumUpdate(v.calls, CallRank, rid, w.calls[rid]);
    MapSumUpdate(v.opens, OpenRank, sid, w.opens[sid]);
  }

  lemma LockResponseUses(v: Invokes, at: nat)
    requires CanLockResponse(v, at)
    ensures CallWork(DoLockResponse(v, at)) < CallWork(v)
  {
    var w := DoLockResponse(v, at);
    MapSumUpdate(v.resps, RespRank, at, w.resps[at]);
  }

  lemma HandOverUses(v: Invokes, at: nat)
    requires CanHandOver(v, at)
    ensures CallWork(DoHandOver(v, at)) < CallWork(v)
  {
    var w := DoHandOver(v, at);
    MapSumUpdate(v.calls, CallRank, v.resps[at].id, w.calls[v.resps[at].id]);
    MapSumUpdate(v.resps, RespRank, at, w.resps[at]);
  }

  lemma OneCallUses(v: Invokes, ctxDone: bool, pos: nat, op: CallOp)
    requires CallGuard(v, ctxDone, op) && (op.Announce? || op.Grant? || op.SendRequest? || op.Arrive?)
    requires forall id | id in v.calls && v.calls[id].kind.Notify? :: v.calls[id].pc.Fresh? || v.calls[id].pc.Returned?
    ensures |CallEmits(v, op)| <= 1
    ensures CallWork(CallEffect(v, ctxDone, pos, op)) + PacketsRank(CallEmits(v, op)) < CallWork(v)
  {
    OneCallChanges(v, ctxDone, pos, op);
    var w := CallEffect(v, ctxDone, pos, op);
    MapSumUpdate(v.calls, CallRank, op.id, w.calls[op.id]);
    hide CallEffect, CallGuard, CallEmits, CallRank, MapSum;
  }

  lemma OneCallChanges(v: Invokes, ctxDone: bool, pos: nat, op: CallOp)
    requires CallGuard(v, ctxDone, op) && (op.Announce? || op.Grant? || op.SendRequest? || op.Arrive?)
    requires forall id | id in v.calls && v.calls[id].kind.Notify? :: v.calls[id].pc.Fresh? || v.calls[id].pc.Returned?
    ensures |CallEmits(v, op)| <= 1
    ensures LowersCall(v, CallEffect(v, ctxDone, pos, op), op.id, PacketsRank(CallEmits(v, op)))
  {
    hide CallEffect, CallGuard, CallEmits;
    match op
    case Announce(id) => AnnounceChanges(v, ctxDone, pos, id);
    case Grant(id) => GrantChanges(v, ctxDone, pos, id);
    case SendRequest(id) => SendChanges(v, ctxDone, pos, id);
    case Arrive(id) => ArriveChanges(v, ctxDone, pos, id);
  }

  /** The step changes one call, which then has less to do. */
  predicate LowersCall(v: Invokes, w: Invokes, id: nat, spent: nat) {
    && id in v.calls && id in w.calls && w.calls == v.calls[id := w.calls[id]]
    && w.opens == v.opens && w.resps == v.resps && CallRank(w.calls[id]) + spent < CallRank(v.calls[id])
  }

  lemma AnnounceChanges(v: Invokes, ctxDone: bool, pos: nat, id: nat)
    requires CallGuard(v, ctxDone, Announce(id))
    ensures CallEmits(v, Announce(id)) == [] && LowersCall(v, CallEffect(v, ctxDone, pos, Announce(id)), id, 0)
  {
  }

  lemma GrantChanges(v: Invokes, ctxDone: bool, pos: nat, id: nat)
    requires CallGuard(v, ctxDone, Grant(id))
    ensures CallEmits(v, Grant(id)) == [] && LowersCall(v, CallEffect(v, ctxDone, pos, Grant(id)), id, 0)
  {
  }

  lemma SendChanges(v: Invokes, ctxDone: bool, pos: nat, id: nat)
    requires CallGuard(v, ctxDone, SendRequest(id))
    ensures |CallEmits(v, SendRequest(id))| == 1
    ensures LowersCall(v, CallEffect(v, ctxDone, pos, SendRequest(id)), id, PacketsRank(CallEmits(v, SendRequest(id))))
  {
  }

  lemma ArriveChanges(v: Invokes, ctxDone: bool, pos: nat, id: nat)
    requires CallGuard(v, ctxDone, Arrive(id))
    ensures CallEmits(v, Arrive(id)) == [] && LowersCall(v, CallEffect(v, ctxDone, pos, Arrive(id)), id, 0)
  {
  }

  lemma CallUses(v: Invokes, ctxDone: bool, pos: nat, op: CallOp)
    requires CallGuard(v, ctxDone, op) && Internal(OfCall(op)) && v.lastId + 1 !in v.calls
    requires forall id | id in v.calls && v.calls[id].kind.Notify? :: v.calls[id].pc.Fresh? || v.calls[id].pc.Returned?
    ensures |CallEmits(v, op)| <= 1
    ensures CallWork(CallEffect(v, ctxDone, pos, op)) + PacketsRank(CallEmits(v, op)) < CallWork(v)
  {
    hide CallWork;
    match op {
      case OpenInvoke(sid) => OpenInvokeUses(v, sid);
      case LockResponse(at) => LockResponseUses(v, at);
      case HandOver(at) => HandOverUses(v, at);
      case _ => OneCallUses(v, ctxDone, pos, op);
    }
  }

  lemma RequestUses(c: Config, r: Requests, ctxDone: bool, pos: nat, op: RequestOp)
    requires RequestGuard(c, r, ctxDone, op) && Internal(OfRequest(op))
    ensures |RequestEmits(r, op)| <= 1
    ensures RequestWork(RequestEffect(c, r, ctxDone, pos, op)) + PacketsRank(RequestEmits(r, op)) < RequestWork(r)
  {
    RequestChanges(c, r, ctxDone, pos, op);
    var w := RequestEffect(c, r, ctxDone, pos, op);
    MapSumUpdate(r.reqs, ReqRank, op.at, w.reqs[op.at]);
    hide RequestEffect, RequestGuard, RequestEmits, ReqRank, MapSum;
  }

  lemma RequestChanges(c: Config, r: Requests, ctxDone: bool, pos: nat, op: RequestOp)
    requires RequestGuard(c, r, ctxDone, op) && Internal(OfRequest(op))
    ensures |RequestEmits(r, op)| <= 1
    ensures var w := RequestEffect(c, r, ctxDone, pos, op);
            && op.at in r.reqs && op.at in w.reqs && w.reqs == r.reqs[op.at := w.reqs[op.at]]
            && ReqRank(w.reqs[op.at]) + PacketsRank(RequestEmits(r, op)) < ReqRank(r.reqs[op.at])
  {
  }

  /** Registering a stream, or starting its handler, adds no work. */
  lemma TableUses(c: Config, r: Requests, t: Table, op: RequestOp)
    ensures StreamWork(RequestOnTable(c, r, t, op)) <= StreamWork(t)
  {
    var t' := RequestOnTable(c, r, t, op);
    if t' != t {
      var k := Key(ServerSide, r.reqs[op.at].req.input.streamId);
      assert t'.objs == t.objs[k := t'.objs[k]];
      MapSumUpdate(t.objs, ObjRank, k, t'.objs[k]);
    }
  }

  lemma StreamUses(v: Invokes, t: Table, ctxDone: bool, op: StreamOp)
    requires StreamGuard(v, t, ctxDone, op) && Internal(OfStream(op))
    ensures |StreamEmits(t, op)| <= 1
    ensures var t' := StreamEffect(v, t, ctxDone, op);
            if op.RegisterStream? then StreamWork(t') == StreamWork(t)
            else StreamWork(t') + PacketsRank(StreamEmits(t, op)) < StreamWork(t)
  {
    var t' := StreamEffect(v, t, ctxDone, op);
    var k := if op.RegisterStream? then Key(ClientSide, op.sid) else op.key;
    assert t'.objs == t.objs[k := t'.objs[k]];
    MapSumUpdate(t.objs, ObjRank, k, t'.objs[k]);
  }

  lemma ReadUses(e: Endpoint, p: Packet)
    requires e.io.read !in e.inv.resps && e.io.read !in e.srv.reqs
    ensures var e' := DoRead(e, p);
            CallWork(e'.inv) + RequestWork(e'.srv) + StreamWork(e'.str) < 
            CallWork(e.inv) + RequestWork(e.srv) + StreamWork(e.str) + PacketRank(p)
  {
    var e' := DoRead(e, p);
    match p
    case Request(req) => MapSumUpdate(e.srv.reqs, ReqRank, e.io.read, e'.srv.reqs[e.io.read]);
    case Response(_, _, _) => MapSumUpdate(e.inv.resps, RespRank, e.io.read, e'.inv.resps[e.io.read]);
    case StreamPacket(m) =>
      var k := TargetKey(m);
      if k in e.str.live && k in e.str.objs { MapSumUpdate(e.str.objs, ObjRank, k, e'.str.objs[k]); }
    case CtxCancel(id, cause) =>
      if id in e.srv.cancels && e.srv.cancels[id].target in e.srv.reqs {
        var at := e.srv.cancels[id].target;
        MapSumUpdate(e.srv.reqs, ReqRank, at, e'.srv.reqs[at]);
      }
  }

  lemma ReadShortens(io: Io, read: nat)
    requires io.written <= |io.out| && read < |io.out|
    ensures WireWork(io, read + 1) + PacketRank(io.out[read]) == WireWork(io, read)
  {
    assert io.out[read..][0] == io.out[read] && io.out[read..][1..] == io.out[read+1..];
  }

  // ---------------------------------------------------------------- whole steps

  /** The work of both endpoints, seen from one of them. */
  ghost function Total(e: Endpoint, p: Endpoint): nat
    requires WireOk(e.io, p.io) && WireOk(p.io, e.io)
  {
    Work(e, p.io.read) + Work(p, e.io.read)
  }

  lemma CallStepUses(c: Config, cap: nat, e: Endpoint, p: Endpoint, op: CallOp)
    requires Good(e, p) && Guard(c, cap, e, p.io, OfCall(op)) && Internal(OfCall(op))
    requires var e' := Effect(c, cap, e, p.io, OfCall(op)); WireOk(e'.io, p.io) && WireOk(p.io, e'.io)
    ensures Total(Effect(c, cap, e, p.io, OfCall(op)), p) < Total(e, p)
  {
    CallsPlain(e);
    CallUses(e.inv, e.io.ctxDone, |e.io.out|, op);
    EmitCosts(e.io, CallEmits(e.inv, op), p.io.read);
    var e' := Effect(c, cap, e, p.io, OfCall(op));
    CallKeepsOpens(e.inv, e.io.ctxDone, |e.io.out|, op);
    SameOpens(e, e');
    hide Unregistered, CallWork, WireWork, RequestWork, StreamWork, Local, Shared, CallEffect, CallGuard, Internal;
  }

  lemma SameOpens(e: Endpoint, e': Endpoint)
    requires e'.inv.opens.Keys == e.inv.opens.Keys && e'.str == e.str
    ensures Unregistered(e') == Unregistered(e)
  {
  }

  lemma CallKeepsOpens(v: Invokes, ctxDone: bool, pos: nat, op: CallOp)
    requires CallGuard(v, ctxDone, op) && Internal(OfCall(op))
    ensures CallEffect(v, ctxDone, pos, op).opens.Keys == v.opens.Keys
  {
  }

  lemma CallsPlain(e: Endpoint)
    requires Local(e)
    ensures e.inv.lastId + 1 !in e.inv.calls
    ensures forall id | id in e.inv.calls && e.inv.calls[id].kind.Notify? ::
              e.inv.calls[id].pc.Fresh? || e.inv.calls[id].pc.Returned?
  {
    forall id | id in e.inv.calls && e.inv.calls[id].kind.Notify?
      ensures e.inv.calls[id].pc.Fresh? || e.inv.calls[id].pc.Returned?
    {
      assert CallFits(e.inv, id);
    }
  }

  lemma RequestStepUses(c: Config, cap: nat, e: Endpoint, p: Endpoint, op: RequestOp)
    requires Good(e, p) && Guard(c, cap, e, p.io, OfRequest(op)) && Internal(OfRequest(op))
    requires var e' := Effect(c, cap, e, p.io, OfRequest(op)); WireOk(e'.io, p.io) && WireOk(p.io, e'.io)
    ensures Total(Effect(c, cap, e, p.io, OfRequest(op)), p) < Total(e, p)
  {
    RequestUses(c, e.srv, e.io.ctxDone, |e.io.out|, op);
    TableUses(c, e.srv, e.str, op);
    EmitCosts(e.io, RequestEmits(e.srv, op), p.io.read);
    SameUnregistered(c, cap, e, p, op);
    hide Unregistered, CallWork, WireWork, RequestWork, StreamWork, Local;
    hide Shared, RequestEffect, RequestOnTable, RequestGuard, Internal;
  }

  lemma SameUnregistered(c: Config, cap: nat, e: Endpoint, p: Endpoint, op: RequestOp)
    requires Guard(c, cap, e, p.io, OfRequest(op))
    ensures Unregistered(Effect(c, cap, e, p.io, OfRequest(op))) == Unregistered(e)
  {
    ServerKeysOnly(c, e.srv, e.str, op);
    hide RequestEffect, RequestOnTable, RequestGuard;
  }

  lemma ServerKeysOnly(c: Config, r: Requests, t: Table, op: RequestOp)
    ensures forall sid :: Key(ClientSide, sid) in RequestOnTable(c, r, t, op).objs <==> Key(ClientSide, sid) in t.objs
  {
  }

  lemma StreamKeys(v: Invokes, t: Table, ctxDone: bool, op: StreamOp)
    requires StreamGuard(v, t, ctxDone, op)
    ensures StreamEffect(v, t, ctxDone, op).objs.Keys ==
            t.objs.Keys + if op.RegisterStream? then {Key(ClientSide, op.sid)} else {}
    ensures op.RegisterStream? ==> op.sid in v.opens && Key(ClientSide, op.sid) !in t.objs
  {
  }

  lemma RegisterShrinks(e: Endpoint, e': Endpoint, sid: nat)
    requires e'.inv == e.inv && sid in e.inv.opens && Key(ClientSide, sid) !in e.str.objs
    requires e'.str.objs.Keys == e.str.objs.Keys + {Key(ClientSide, sid)}
    ensures |Unregistered(e')| + 1 == |Unregistered(e)|
  {
    assert Unregistered(e') == Unregistered(e) - {sid};
  }

  lemma StreamStepUses(c: Config, cap: nat, e: Endpoint, p: Endpoint, op: StreamOp)
    requires Good(e, p) && Guard(c, cap, e, p.io, OfStream(op)) && Internal(OfStream(op))
    requires var e' := Effect(c, cap, e, p.io, OfStream(op)); WireOk(e'.io, p.io) && WireOk(p.io, e'.io)
    ensures Total(Effect(c, cap, e, p.io, OfStream(op)), p) < Total(e, p)
  {
    hide CallWork, WireWork, RequestWork, StreamWork, Local, Shared, StreamEffect, StreamGuard;
    StreamUses(e.inv, e.str, e.io.ctxDone, op);
    EmitCosts(e.io, StreamEmits(e.str, op), p.io.read);
    StreamKeys(e.inv, e.str, e.io.ctxDone, op);
    var e' := Effect(c, cap, e, p.io, OfStream(op));
    if op.RegisterStream? { RegisterShrinks(e, e', op.sid); }
    else { assert Unregistered(e') == Unregistered(e); }
  }

  lemma ReadStepUses(e: Endpoint, p: Endpoint)
    requires Good(e, p) && e.io.read < p.io.written
    requires WireOk(e.io, p.io) && WireOk(p.io, e.io)
    requires var e' := DoRead(e, p.io.out[e.io.read]); WireOk(e'.io, p.io) && WireOk(p.io, e'.io)
    ensures Total(DoRead(e, p.io.out[e.io.read]), p) < Total(e, p)
  {
    hide CallWork, RequestWork, StreamWork, WireWork, Local, Shared, MapSum;
    ReadKeepsSpawns(e, p.io);
    ReadUses(e, p.io.out[e.io.read]);
    ReadShortens(p.io, e.io.read);
    ReadKeeps(e, p.io.out[e.io.read], p.io.read);
  }

  lemma ReadKeeps(e: Endpoint, p: Packet, peerRead: nat)
    requires e.io.written <= |e.io.out| && peerRead <= |e.io.out|
    ensures var e' := DoRead(e, p);
            Unregistered(e') == Unregistered(e) && WireWork(e'.io, peerRead) == WireWork(e.io, peerRead)
  {
    var e' := DoRead(e, p);
    assert e'.str.objs.Keys == e.str.objs.Keys && e'.inv.opens == e.inv.opens;
  }

  lemma LinkStepUses(c: Config, cap: nat, e: Endpoint, p: Endpoint, op: LinkOp)
    requires Good(e, p) && Guard(c, cap, e, p.io, OfLink(op)) && Internal(OfLink(op))
    requires var e' := Effect(c, cap, e, p.io, OfLink(op)); WireOk(e'.io, p.io) && WireOk(p.io, e'.io)
    ensures Total(Effect(c, cap, e, p.io, OfLink(op)), p) < Total(e, p)
  {
    hide CallWork, RequestWork, StreamWork, Local, Shared, MapSum;
    if op.Read? {
      ReadStepUses(e, p);
    } else {
      assert Unregistered(LinkEffect(cap, e, p.io, op)) == Unregistered(e);
    }
  }

  lemma EndpointStepUses(c: Config, cap: nat, e: Endpoint, p: Endpoint, op: Op)
    requires Good(e, p) && Guard(c, cap, e, p.io, op) && Internal(op)
    requires var e' := Effect(c, cap, e, p.io, op); WireOk(e'.io, p.io) && WireOk(p.io, e'.io)
    ensures Total(Effect(c, cap, e, p.io, op), p) < Total(e, p)
  {
    hide Local, Shared, Work;
    match op
    case OfCall(o) => CallStepUses(c, cap, e, p, o);
    case OfRequest(o) => RequestStepUses(c, cap, e, p, o);
    case OfStream(o) => StreamStepUses(c, cap, e, p, o);
    case OfLink(o) => LinkStepUses(c, cap, e, p, o);
  }

  lemma WiresOk(s: Sys)
    requires Inv(s)
    ensures WireOk(s.a.io, s.b.io) && WireOk(s.b.io, s.a.io)
  {
  }

  ghost function MeasureOf(s: Sys): nat
    requires Inv(s)
  {
    WiresOk(s);
    Measure(s)
  }

  /** Every internal step uses up some of the measure. */
  lemma StepDecreases(w: World, s: Sys, act: Action)
    requires Inv(s) && Enabled(w, s, act) && Internal(act.op)
    ensures Inv(Step(w, s, act)) && MeasureOf(Step(w, s, act)) < MeasureOf(s)
  {
    hide Local, Shared, Work;
    StepKeepsInv(w, s, act);
    WiresOk(s);
    WiresOk(Step(w, s, act));
    EndpointStepUses(w.Of(act.x), w.cap, s.Of(act.x), s.Of(PeerOf(act.x)), act.op);
  }

  predicate InternalRun(acts: seq<Action>) {
    forall a | a in acts :: Internal(a.op)
  }

  lemma {:induction false} InternalRunsEnd(w: World, s: Sys, acts: seq<Action>)
    requires Inv(s) && Run(w, s, acts).Some? && InternalRun(acts)
    ensures |acts| <= MeasureOf(s)
    decreases |acts|
  {
    if acts != [] {
      hide Inv, MeasureOf, Internal;
      assert acts[0] in acts && forall a | a in acts[1..] :: a in acts;
      StepDecreases(w, s, acts[0]);
      InternalRunsEnd(w, Step(w, s, acts[0]), acts[1..]);
    }
  }

  // ---------------------------------------------------------------- the theorem

  /** Nothing is left for the library to do. */
  ghost predicate Quiet(w: World, s: Sys) {
    forall act: Action :: Internal(act.op) ==> !Enabled(w, s, act)
  }

  ghost predicate AllReturned(v: Invokes) {
    forall id | id in v.calls ::
      v.calls[id].pc.Returned? &&
      (if v.calls[id].kind.Notify? then v.calls[id].pc.ret.Sent? else v.calls[id].pc.ret.FromChannel?)
  }

  /** Every NewStream has registered its stream; one that has not made its call is left only when
      the ids are used up. */
  ghost predicate AllOpened(e: Endpoint) {
    forall sid | sid in e.inv.opens && (e.inv.opens[sid].InvokedAs? || e.inv.lastId + 1 < ID_SPACE) ::
      Key(ClientSide, sid) in e.str.objs
  }

  lemma OpenSucceeded(e: Endpoint, p: Endpoint, sid: nat)
    requires Good(e, p) && AllReturned(e.inv) && sid in e.inv.opens && e.inv.opens[sid].InvokedAs?
    ensures e.inv.opens[sid].rid in e.inv.calls && Succeeded(e.inv.calls[e.inv.opens[sid].rid].pc)
  {
    assert OpensOk(e.inv);
    var rid := e.inv.opens[sid].rid;
    assert CallFits(e.inv, rid);
    ResultIsFromHandler(e, p, rid);
  }

  lemma QuietMeansOpened(w: World, s: Sys, x: End)
    requires Inv(s) && Quiet(w, s) && AllReturned(s.Of(x).inv)
    ensures AllOpened(s.Of(x))
  {
    hide Local, Shared, AllReturned;
    var e := s.Of(x);
    forall sid | sid in e.inv.opens && (e.inv.opens[sid].InvokedAs? || e.inv.lastId + 1 < ID_SPACE)
      ensures Key(ClientSide, sid) in e.str.objs
    {
      var call := Action(x, OfCall(OpenInvoke(sid)));
      assert Internal(call.op) && !Enabled(w, s, call);
      OpenSucceeded(e, s.Of(PeerOf(x)), sid);
      var act := Action(x, OfStream(RegisterStream(sid)));
      assert Internal(act.op);
      assert !Enabled(w, s, act);
    }
  }

  lemma QuietMeansReturned(w: World, s: Sys, x: End)
    requires w.cap >= 1 && Inv(s) && HealthySys(w, s) && Quiet(w, s)
    ensures AllReturned(s.Of(x).inv)
  {
    var e, p := s.Of(x), s.Of(PeerOf(x));
    forall id | id in e.inv.calls
      ensures e.inv.calls[id].pc.Returned? &&
              (if e.inv.calls[id].kind.Notify? then e.inv.calls[id].pc.ret.Sent?
               else e.inv.calls[id].pc.ret.FromChannel?)
    {
      PendingIsImpossible(w, s, x, id);
      ReturnIsProper(e, p, id);
    }
  }

  lemma PendingIsImpossible(w: World, s: Sys, x: End, id: nat)
    requires w.cap >= 1 && Inv(s) && HealthySys(w, s) && Quiet(w, s) && id in s.Of(x).inv.calls
    ensures s.Of(x).inv.calls[id].pc.Returned?
  {
    hide Local, Shared, Healthy;
    if !s.Of(x).inv.calls[id].pc.Returned? {
      var ch := PendingMoves(w.Of(x), w.Of(PeerOf(x)), w.cap, s.Of(x), s.Of(PeerOf(x)), id);
      var act := Action(if ch.Mine? then x else PeerOf(x), ch.op);
      assert false;
    }
  }

  lemma ReturnIsProper(e: Endpoint, p: Endpoint, id: nat)
    requires Good(e, p) && NoneLeft(e.inv) && id in e.inv.calls && e.inv.calls[id].pc.Returned?
    ensures if e.inv.calls[id].kind.Notify? then e.inv.calls[id].pc.ret.Sent? else e.inv.calls[id].pc.ret.FromChannel?
  {
    ReturnFacts(e, p, id);
    NoneLeftHere(e.inv, id);
    hide Good, NoneLeft;
    if e.inv.calls[id].pc.ret.FromChannel? { ChannelMeansCall(e, p, id); }
  }

  lemma ChannelMeansCall(e: Endpoint, p: Endpoint, id: nat)
    requires Good(e, p) && id in e.inv.calls && e.inv.calls[id].pc.Returned? && e.inv.calls[id].pc.ret.FromChannel?
    ensures !e.inv.calls[id].kind.Notify?
  {
    assert CallFits(e.inv, id);
    hide Local, Shared;
    ResultIsFromHandler(e, p, id);
  }

  lemma ReturnFacts(e: Endpoint, p: Endpoint, id: nat)
    requires Good(e, p) && id in e.inv.calls && e.inv.calls[id].pc.Returned?
    ensures (e.inv.calls[id].pc.ret.Sent? ==> e.inv.calls[id].kind.Notify?) && Good(e, p)
  {
    assert GotFits(e.inv, id);
  }

  /** Every call completes. Take any run in which no context ends, nothing is torn down and every
      call is one the peer serves; let user code start nothing more. Then the library stops
      after at most as many steps as the measure of the state, on a wire of any capacity, and
      when it has stopped every Invoke has returned with its response, every Notify has handed
      over its request and every NewStream has its stream. */
  lemma EveryCallCompletes(w: World, acts: seq<Action>, more: seq<Action>)
    requires w.cap >= 1 && Run(w, INIT, acts).Some? && UndisturbedRun(w, acts)
    requires Run(w, Run(w, INIT, acts).value, more).Some? && InternalRun(more)
    ensures Inv(Run(w, INIT, acts).value) && |more| <= MeasureOf(Run(w, INIT, acts).value)
    ensures var s := Run(w, Run(w, INIT, acts).value, more).value;
            Quiet(w, s) ==> AllReturned(s.a.inv) && AllReturned(s.b.inv) && AllOpened(s.a) && AllOpened(s.b)
  {
    hide Run, Local, Shared, MeasureOf, Quiet, AllReturned, AllOpened;
    InitHolds();
    InitHealthy(w);
    var s := Run(w, INIT, acts).value;
    RunKeepsInv(w, INIT, acts);
    RunKeepsHealthy(w, INIT, acts);
    InternalRunsEnd(w, s, more);
    var t := Run(w, s, more).value;
    InternalIsUndisturbed(w, more);
    RunKeepsInv(w, s, more);
    RunKeepsHealthy(w, s, more);
    if Quiet(w, t) {
      QuietMeansReturned(w, t, A);
      QuietMeansReturned(w, t, B);
      QuietMeansOpened(w, t, A);
      QuietMeansOpened(w, t, B);
    }
  }

  lemma InitHealthy(w: World)
    ensures HealthySys(w, INIT)
  {
  }

  lemma InternalIsUndisturbed(w: World, acts: seq<Action>)
    requires InternalRun(acts)
    ensures UndisturbedRun(w, acts)
  {
    forall a | a in acts ensures Undisturbed(w.Of(PeerOf(a.x)), a.op) {
      assert Internal(a.op);
    }
  }
}
