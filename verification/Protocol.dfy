/** Two endpoints of one connection as a state machine (xrpc/conn.go), after both have
    exchanged hellos. Each endpoint is client and server at once.

    A step is an Action: an operation of one goroutine of one endpoint. Guard says when it
    can run, Effect what it does and Emits which packet it hands to the writer goroutine.
    They look at the peer only through its side of the wire, so a step never changes the
    peer.

    History is part of the state. `out` lists every packet handed to the writer goroutine;
    the first `written` of them are on the wire, and the peer's reader has taken the first
    `read`. Goroutines are never forgotten: an Invoke is named by its request id, a
    processRequest or processResponse by the position in the peer's `out` of the packet
    that started it. */
module Protocol {
  import opened Packets
  import opened Streams

  // ---------------------------------------------------------------- configuration

  datatype Service = Service(methods: set<string>, streams: set<string>)

  /** What one endpoint serves, and which message types it can decode. */
  datatype Config = Config(services: map<string, Service>, types: set<string>)

  /** Both endpoints, and how many unread packets a direction of the wire holds. */
  datatype World = World(a: Config, b: Config, cap: nat) {
    function Of(x: End): Config {
      match x
      case A => a
      case B => b
    }
  }

  // ---------------------------------------------------------------- outgoing calls

  /** How a call ended: with the response at position `at` of the peer's packets, or
      through a Done branch. A notification that was handed over ends as Sent. */
  datatype Ret = FromChannel(at: nat, out: Option<Output>, error: string) | Sent | Abandoned

  datatype CallKind = Unary | Notify | Opens(streamId: nat)

  datatype CallPc =
    | Fresh                 // has an id
    | RegLock               // called invokesMu.Lock to register
    | Registered            // in `invokes`, handing its request to the writer
    | Handed                // request handed over, on its way to the select
    | Waiting               // in the select
    | Cancelling            // took the ctx.Done branch, handing over a CtxCancel
    | Leaving(ret: Ret)     // in the deferred function
    | DelLock(ret: Ret)     // called invokesMu.Lock to unregister
    | Returned(ret: Ret)

  datatype Call = Call(kind: CallKind, service: string, methodName: string, input: Input,
                       pc: CallPc, sentAt: Option<nat>)

  /** NewStream before it registers its stream. */
  datatype Opening = NeedInvoke(service: string, methodName: string) | InvokedAs(rid: nat)

  datatype RespPc = Arrived | Sending | Delivered | Unknown

  datatype Resp = Resp(id: nat, out: Option<Output>, error: string, pc: RespPc)

  datatype Chan = ChanOpen | ChanClosed

  /** invokesMu is a write-preferring lock: a writer first announces itself, which keeps new
      readers out, and is granted the lock once the readers inside have left. */
  datatype Invokes = Invokes(
    lastId: nat,
    calls: map<nat, Call>,
    opens: map<nat, Opening>,
    invokes: set<nat>,
    chans: map<nat, Chan>,
    announced: Option<nat>,
    readers: set<nat>,
    resps: map<nat, Resp>)

  function RequestOf(id: nat, c: Call): RequestMsg {
    RequestMsg(id, c.service, c.methodName, c.input, c.kind.Notify?)
  }

  // ---------------------------------------------------------------- incoming requests

  datatype Outcome = Replied(any: Any) | Failed(error: string)

  datatype ReqPc =
    | Started
    | Running                                          // in `cancels`, handler running
    | Ran                                              // handler returned
    | Responding(out: Option<Output>, error: string)   // handing over the response
    | Removing                                         // deferred delete from `cancels`
    | Finished

  datatype Req = Req(req: RequestMsg, pc: ReqPc, outcome: Option<Outcome>,
                     answeredAt: Option<nat>, cause: Option<string>)

  /** The value type stored in `cancels`; the cancel function is named by its request. */
  datatype CancelEntry = CancelEntry(target: nat, cancelled: bool)

  datatype Requests = Requests(
    reqs: map<nat, Req>,
    cancels: map<nat, CancelEntry>,
    answeredBy: map<nat, nat>)

  // ---------------------------------------------------------------- streams

  /** `clientStreams` and `serverStreams` in one table. */
  datatype Key = Key(side: Side, id: nat)

  /** The other end of the same stream. */
  function Mirror(k: Key): Key { Key(Opposite(k.side), k.id) }

  datatype Owner = NotStarted | Serving | Ending | Gone

  /** A stream object and what its one sending goroutine is doing: handing over `pending`, or on
      its way, having found the stream open, to close it with `closing`. The remaining fields are
      history: accepted messages, dispatched messages, RecvMsg results, whether the first
      close was a local one, how many messages for this stream had been dropped when it was
      registered, and the request that created it. */
  datatype Obj = Obj(
    st: Stream,
    owner: Owner,
    pending: Option<StreamMsg>,
    closing: Option<Payload>,
    sent: seq<StreamMsg>,
    received: seq<StreamMsg>,
    outcomes: seq<RecvOutcome>,
    closedLocally: bool,
    base: nat,
    creator: nat)

  datatype Table = Table(objs: map<Key, Obj>, live: set<Key>, drops: seq<Packet>)

  /** The stream end that sent a message, and the one it is for. */
  function SenderKey(m: StreamMsg): Key { Key(m.sender, m.streamId) }
  function TargetKey(m: StreamMsg): Key { Mirror(SenderKey(m)) }

  /** The stream messages in `ps` that the stream end `k` sent. */
  function SentBy(ps: seq<Packet>, k: Key): seq<StreamMsg> {
    if ps == [] then []
    else
      var last := ps[|ps|-1];
      SentBy(ps[..|ps|-1], k) +
      if last.StreamPacket? && SenderKey(last.msg) == k then [last.msg] else []
  }

  function NewObj(k: Key, owner: Owner, base: nat, creator: nat): Obj {
    Obj(NewStream(k.id, k.side), owner, None, None, [], [], [], false, base, creator)
  }

  function Dispatch(t: Table, m: StreamMsg): Table {
    var k := TargetKey(m);
    if k in t.live && k in t.objs then
      var o := t.objs[k];
      t.(objs := t.objs[k := o.(st := Deliver(o.st, m), received := o.received + [m])])
    else
      t.(drops := t.drops + [StreamPacket(m)])
  }

  /** `close()`: a close with no peer text. */
  function CloseLocally(o: Obj): Obj {
    o.(st := CloseWith(o.st, ""), closedLocally := o.closedLocally || o.st.active)
  }

  function StartSend(o: Obj, payload: Payload): Obj {
    var m := NextMsg(o.st, payload);
    o.(st := TakeSeq(o.st), pending := Some(m), sent := o.sent + [m])
  }

  // ---------------------------------------------------------------- endpoints

  datatype Io = Io(out: seq<Packet>, written: nat, read: nat,
                   ctxDone: bool, reading: bool, writing: bool, cleaned: bool)

  datatype Endpoint = Endpoint(inv: Invokes, srv: Requests, str: Table, io: Io)

  datatype Sys = Sys(a: Endpoint, b: Endpoint) {
    function Of(x: End): Endpoint {
      match x
      case A => a
      case B => b
    }

    function With(x: End, e: Endpoint): Sys {
      match x
      case A => Sys(e, b)
      case B => Sys(a, e)
    }
  }

  const IDLE := Endpoint(
    Invokes(0, map[], map[], {}, map[], None, {}, map[]),
    Requests(map[], map[], map[]),
    Table(map[], {}, []),
    Io([], 0, 0, false, true, true, false))

  const INIT := Sys(IDLE, IDLE)

  // ---------------------------------------------------------------- operations

  /** How a stream handler returns: with StreamClosedError, another error, or nil. */
  datatype HandlerEnd = SawClosed | WithError(error: string) | WithNil

  /** Invoke, Notify, the calls NewStream makes, and processResponse. */
  datatype CallOp =
    | StartCall(service: string, methodName: string, any: Any, notify: bool)
    | StartOpen(service: string, methodName: string)
    | OpenInvoke(sid: nat)
    | Announce(id: nat)
    | Grant(id: nat)
    | SendRequest(id: nat)
    | Arrive(id: nat)
    | CtxEnds(id: nat)
    | SendCancel(id: nat, cause: string)
    | ServeEnds(id: nat)
    | LockResponse(at: nat)
    | HandOver(at: nat)

  /** processRequest */
  datatype RequestOp =
    | Accept(at: nat)
    | DecodeFails(at: nat)
    | HandlerReturns(at: nat, outcome: Outcome)
    | Decide(at: nat)
    | Respond(at: nat)
    | RespondFails(at: nat)
    | RemoveCancel(at: nat)

  /** The last step of NewStream, user code on streams, and the goroutine that sends. */
  datatype StreamOp =
    | RegisterStream(sid: nat)
    | Send(key: Key, any: Any)
    | CloseStream(key: Key, error: Option<string>)   // CloseWithError finds the stream open
    | FinishClose(key: Key)                          // and closes it
    | HandlerEnds(key: Key, how: HandlerEnd)
    | Recv(key: Key)
    | FlushStream(key: Key)
    | FlushFails(key: Key)
    | EndStream(key: Key)

  /** The reader, the writer and the teardown of serve. */
  datatype LinkOp = Read | Write | EndCtx | StopReader | StopWriter | Cleanup

  datatype Op =
    | OfCall(call: CallOp)
    | OfRequest(request: RequestOp)
    | OfStream(stream: StreamOp)
    | OfLink(link: LinkOp)

  /** The writer goroutine takes a packet only when it has none. */
  predicate CanHandOff(io: Io) {
    io.writing && io.written == |io.out|
  }

  /** The packets a step hands to the writer: none or one. */
  function Emit(io: Io, ps: seq<Packet>): Io {
    io.(out := io.out + ps)
  }

  predicate CanEmit(io: Io, ps: seq<Packet>) {
    ps == [] || CanHandOff(io)
  }

  predicate HasCall(v: Invokes, id: nat, pc: CallPc) {
    id in v.calls && v.calls[id].pc == pc
  }

  function SetPc(v: Invokes, id: nat, pc: CallPc): Invokes
    requires id in v.calls
  {
    v.(calls := v.calls[id := v.calls[id].(pc := pc)])
  }

  predicate HasReq(r: Requests, at: nat, pc: ReqPc) {
    at in r.reqs && r.reqs[at].pc == pc
  }

  function SetReqPc(r: Requests, at: nat, pc: ReqPc): Requests
    requires at in r.reqs
  {
    r.(reqs := r.reqs[at := r.reqs[at].(pc := pc)])
  }

  // ---- calls

  function DoStartCall(v: Invokes, service: string, methodName: string, any: Any, notify: bool): Invokes {
    var id := v.lastId + 1;
    v.(lastId := id,
       calls := v.calls[id := Call(if notify then Notify else Unary, service, methodName, Message(any), Fresh, None)])
  }

  function DoOpenInvoke(v: Invokes, sid: nat): Invokes
    requires sid in v.opens && v.opens[sid].NeedInvoke?
  {
    var rid := v.lastId + 1;
    var o := v.opens[sid];
    v.(lastId := rid,
       calls := v.calls[rid := Call(Opens(sid), "", STREAM_REQUEST, OpenStream(sid, o.service, o.methodName),
                                    Fresh, None)],
       opens := v.opens[sid := InvokedAs(rid)])
  }

  function DoStartOpen(v: Invokes, service: string, methodName: string): Invokes {
    v.(lastId := v.lastId + 1, opens := v.opens[v.lastId + 1 := NeedInvoke(service, methodName)])
  }

  predicate CanAnnounce(v: Invokes, id: nat) {
    v.announced.None? && id in v.calls &&
    ((v.calls[id].pc.Fresh? && !v.calls[id].kind.Notify?) || v.calls[id].pc.Leaving?)
  }

  function DoAnnounce(v: Invokes, id: nat): Invokes
    requires CanAnnounce(v, id)
  {
    var w := v.(announced := Some(id));
    if v.calls[id].pc.Fresh? then SetPc(w, id, RegLock).(chans := v.chans[id := ChanOpen])
    else SetPc(w, id, DelLock(v.calls[id].pc.ret))
  }

  predicate CanGrant(v: Invokes, id: nat) {
    v.announced == Some(id) && v.readers == {} && id in v.calls &&
    (v.calls[id].pc.RegLock? || v.calls[id].pc.DelLock?)
  }

  function DoGrant(v: Invokes, id: nat): Invokes
    requires CanGrant(v, id)
  {
    var w := v.(announced := None);
    if v.calls[id].pc.RegLock? then SetPc(w, id, Registered).(invokes := v.invokes + {id})
    else SetPc(w, id, Returned(v.calls[id].pc.ret))
         .(invokes := v.invokes - {id}, chans := v.chans[id := ChanClosed])
  }

  predicate CanSendRequest(v: Invokes, id: nat) {
    id in v.calls &&
    (v.calls[id].pc.Registered? || (v.calls[id].pc.Fresh? && v.calls[id].kind.Notify?))
  }

  function DoSendRequest(v: Invokes, id: nat, at: nat): Invokes
    requires CanSendRequest(v, id)
  {
    var c := v.calls[id];
    v.(calls := v.calls[id := c.(pc := if c.kind.Notify? then Returned(Sent) else Handed, sentAt := Some(at))])
  }

  predicate CanServeEnd(v: Invokes, id: nat) {
    id in v.calls &&
    (v.calls[id].pc.Registered? || v.calls[id].pc.Waiting? || v.calls[id].pc.Cancelling? ||
     (v.calls[id].pc.Fresh? && v.calls[id].kind.Notify?))
  }

  function DoServeEnd(v: Invokes, id: nat): Invokes
    requires CanServeEnd(v, id)
  {
    SetPc(v, id, if v.calls[id].kind.Notify? then Returned(Abandoned) else Leaving(Abandoned))
  }

  /** Invoke returned nil: there was a response, without error text, of the expected type. */
  predicate Succeeded(pc: CallPc) {
    pc.Returned? && pc.ret.FromChannel? && pc.ret.error == "" &&
    pc.ret.out.Some? && pc.ret.out.value.StreamReply?
  }

  predicate CanRegister(v: Invokes, t: Table, sid: nat) {
    sid in v.opens && v.opens[sid].InvokedAs? && v.opens[sid].rid in v.calls &&
    Succeeded(v.calls[v.opens[sid].rid].pc) && Key(ClientSide, sid) !in t.objs
  }

  function DoRegister(t: Table, sid: nat, rid: nat): Table {
    var k := Key(ClientSide, sid);
    t.(objs := t.objs[k := NewObj(k, Serving, |SentBy(t.drops, Mirror(k))|, rid)], live := t.live + {k})
  }

  // ---- processResponse

  function SpawnResp(v: Invokes, at: nat, r: Resp): Invokes {
    v.(resps := v.resps[at := r])
  }

  predicate CanLockResponse(v: Invokes, at: nat) {
    at in v.resps && v.resps[at].pc.Arrived? && v.announced.None?
  }

  function DoLockResponse(v: Invokes, at: nat): Invokes
    requires CanLockResponse(v, at)
  {
    var r := v.resps[at];
    if r.id in v.invokes then
      v.(resps := v.resps[at := r.(pc := Sending)], readers := v.readers + {at})
    else
      v.(resps := v.resps[at := r.(pc := Unknown)])
  }

  predicate CanHandOver(v: Invokes, at: nat) {
    at in v.resps && v.resps[at].pc.Sending? && HasCall(v, v.resps[at].id, Waiting)
  }

  function DoHandOver(v: Invokes, at: nat): Invokes
    requires CanHandOver(v, at)
  {
    var r := v.resps[at];
    SetPc(v, r.id, Leaving(FromChannel(at, r.out, r.error)))
      .(resps := v.resps[at := r.(pc := Delivered)], readers := v.readers - {at})
  }

  // ---- processRequest

  predicate ResolvesStream(c: Config, r: RequestMsg) {
    r.methodName == STREAM_REQUEST && r.input.OpenStream? &&
    r.input.service in c.services && r.input.methodName in c.services[r.input.service].streams
  }

  predicate ResolvesUnary(c: Config, r: RequestMsg) {
    r.service in c.services && r.methodName in c.services[r.service].methods
  }

  predicate Decodes(c: Config, i: Input) {
    i.Message? && i.any.typeName in c.types
  }

  function DoAccept(c: Config, r: Requests, at: nat): Requests
    requires HasReq(r, at, Started)
  {
    var q := r.reqs[at].req;
    if q.service == "" then
      if ResolvesStream(c, q) then SetReqPc(r, at, Responding(Some(StreamReply(q.input.streamId)), ""))
      else SetReqPc(r, at, Finished)
    else
      if ResolvesUnary(c, q) then SetReqPc(r, at, Running).(cancels := r.cancels[q.id := CancelEntry(at, false)])
      else SetReqPc(r, at, Finished)
  }

  function AcceptStream(c: Config, t: Table, q: RequestMsg, at: nat): Table {
    if q.service == "" && ResolvesStream(c, q) then
      var k := Key(ServerSide, q.input.streamId);
      t.(objs := t.objs[k := NewObj(k, NotStarted, 0, at)], live := t.live + {k})
    else t
  }

  function SpawnReq(r: Requests, at: nat, req: RequestMsg): Requests {
    r.(reqs := r.reqs[at := Req(req, Started, None, None, None)])
  }

  function DoReturn(r: Requests, at: nat, outcome: Outcome): Requests
    requires at in r.reqs
  {
    r.(reqs := r.reqs[at := r.reqs[at].(pc := Ran, outcome := Some(outcome))])
  }

  function ReplyOf(o: Outcome): (Option<Output>, string) {
    match o
    case Replied(any) => (Some(Reply(any)), "")
    case Failed(error) => (None, error)
  }

  predicate MarkedCancelled(r: Requests, id: nat) {
    id in r.cancels && r.cancels[id].cancelled
  }

  function DoDecide(r: Requests, at: nat): Requests
    requires HasReq(r, at, Ran) && r.reqs[at].outcome.Some?
  {
    var q := r.reqs[at];
    if q.req.isNotification || MarkedCancelled(r, q.req.id) then SetReqPc(r, at, Removing)
    else
      var (out, error) := ReplyOf(q.outcome.value);
      SetReqPc(r, at, Responding(out, error))
  }

  /** After its response is handed over, or is not, a stream request starts the handler
      and a unary one deletes its cancel entry. */
  function AfterRespond(q: RequestMsg): ReqPc {
    if q.service == "" then Finished else Removing
  }

  function StartHandler(t: Table, q: RequestMsg): Table {
    if q.service == "" && q.input.OpenStream? && Key(ServerSide, q.input.streamId) in t.objs then
      var k := Key(ServerSide, q.input.streamId);
      t.(objs := t.objs[k := t.objs[k].(owner := Serving)])
    else t
  }

  predicate CanRespond(r: Requests, at: nat) {
    at in r.reqs && r.reqs[at].pc.Responding?
  }

  function DoRespond(r: Requests, at: nat, pos: nat): Requests
    requires CanRespond(r, at)
  {
    var q := r.reqs[at];
    r.(reqs := r.reqs[at := q.(pc := AfterRespond(q.req), answeredAt := Some(pos))],
       answeredBy := r.answeredBy[pos := at])
  }

  function DoRemoveCancel(r: Requests, at: nat): Requests
    requires HasReq(r, at, Removing)
  {
    SetReqPc(r, at, Finished).(cancels := r.cancels - {r.reqs[at].req.id})
  }

  /** The reader on a CtxCancel. The map holds the entry by value, so setting the flag of the
      looked-up copy leaves the map as it was; only the cancel function takes effect. */
  function DoCancel(r: Requests, id: nat, cause: string): Requests {
    if id in r.cancels && r.cancels[id].target in r.reqs then
      var at := r.cancels[id].target;
      if r.reqs[at].cause.None? then r.(reqs := r.reqs[at := r.reqs[at].(cause := Some(cause))]) else r
    else r
  }

  // ---- streams

  predicate CanStartSend(t: Table, k: Key) {
    k in t.objs && t.objs[k].owner.Serving? && Idle(t.objs[k]) && t.objs[k].st.active
  }

  /** The sending goroutine is in no operation on the stream. */
  predicate Idle(o: Obj) {
    o.pending.None? && o.closing.None?
  }

  function SetObj(t: Table, k: Key, o: Obj): Table {
    t.(objs := t.objs[k := o])
  }

  function CloseMsg(error: Option<string>): Payload {
    match error
    case None => Close(0, "")
    case Some(text) => Close(2, text)
  }

  predicate CanEndHandler(t: Table, k: Key) {
    k in t.objs && k.side.ServerSide? && t.objs[k].owner.Serving? && Idle(t.objs[k])
  }

  predicate CanFinishClose(t: Table, k: Key) {
    k in t.objs && !t.objs[k].owner.NotStarted? && t.objs[k].closing.Some?
  }

  /** close(), which may find the stream closed by now, and sendClose() up to the hand-off. */
  function DoFinishClose(o: Obj): Obj
    requires o.closing.Some?
  {
    StartSend(CloseLocally(o), o.closing.value).(closing := None)
  }

  function DoEndHandler(o: Obj, how: HandlerEnd): Obj {
    var o' := o.(owner := Ending);
    match how
    case SawClosed => o'
    case WithError(text) => StartSend(CloseLocally(o'), Close(2, text))
    case WithNil => if o.st.active then o'.(closing := Some(Close(0, ""))) else o'
  }

  predicate CanRecv(t: Table, k: Key) {
    k in t.objs && !t.objs[k].owner.NotStarted? && CanReceive(t.objs[k].st) &&
    (t.objs[k].st.queue != [] ==> t.objs[k].st.queue[0].payload.Data?)
  }

  function DoRecv(o: Obj): Obj
    requires CanReceive(o.st) && (o.st.queue != [] ==> o.st.queue[0].payload.Data?)
  {
    if o.st.queue != [] then
      o.(st := PopFront(o.st), outcomes := o.outcomes + [Got(o.st.queue[0].payload.any)])
    else
      o.(outcomes := o.outcomes + [Closed(o.st.remoteError)])
  }

  predicate CanFlush(t: Table, k: Key) {
    k in t.objs && t.objs[k].pending.Some?
  }

  /** writeWsMessage returned an error: the message was not accepted. */
  function DoFlushFails(o: Obj): Obj {
    o.(pending := None, sent := if o.sent == [] then [] else o.sent[..|o.sent|-1])
  }

  predicate CanEndStream(t: Table, k: Key) {
    k in t.objs && t.objs[k].owner.Ending? && Idle(t.objs[k])
  }

  function DoCleanup(t: Table): Table {
    t.(objs := map k | k in t.objs :: if k in t.live then CloseLocally(t.objs[k]) else t.objs[k],
       live := {})
  }

  // ---------------------------------------------------------------- steps of one endpoint

  predicate CallGuard(v: Invokes, ctxDone: bool, op: CallOp) {
    match op
    case StartCall(_, _, _, _) => v.lastId + 1 < ID_SPACE
    case StartOpen(_, _) => v.lastId + 1 < ID_SPACE
    case OpenInvoke(sid) => sid in v.opens && v.opens[sid].NeedInvoke? && v.lastId + 1 < ID_SPACE
    case Announce(id) => CanAnnounce(v, id)
    case Grant(id) => CanGrant(v, id)
    case SendRequest(id) => CanSendRequest(v, id)
    case Arrive(id) => HasCall(v, id, Handed)
    case CtxEnds(id) => HasCall(v, id, Waiting)
    case SendCancel(id, _) => HasCall(v, id, Cancelling)
    case ServeEnds(id) => CanServeEnd(v, id) && ctxDone
    case LockResponse(at) => CanLockResponse(v, at)
    case HandOver(at) => CanHandOver(v, at)
  }

  /** `pos` is the position a packet handed over by this step gets. */
  function CallEffect(v: Invokes, ctxDone: bool, pos: nat, op: CallOp): Invokes
    requires CallGuard(v, ctxDone, op)
  {
    match op
    case StartCall(service, methodName, any, notify) => DoStartCall(v, service, methodName, any, notify)
    case StartOpen(service, methodName) => DoStartOpen(v, service, methodName)
    case OpenInvoke(sid) => DoOpenInvoke(v, sid)
    case Announce(id) => DoAnnounce(v, id)
    case Grant(id) => DoGrant(v, id)
    case SendRequest(id) => DoSendRequest(v, id, pos)
    case Arrive(id) => SetPc(v, id, Waiting)
    case CtxEnds(id) => SetPc(v, id, Cancelling)
    case SendCancel(id, _) => SetPc(v, id, Leaving(Abandoned))
    case ServeEnds(id) => DoServeEnd(v, id)
    case LockResponse(at) => DoLockResponse(v, at)
    case HandOver(at) => DoHandOver(v, at)
  }

  function CallEmits(v: Invokes, op: CallOp): seq<Packet> {
    match op
    case SendRequest(id) => if id in v.calls then [Request(RequestOf(id, v.calls[id]))] else []
    case SendCancel(id, cause) => [CtxCancel(id, cause)]
    case _ => []
  }

  predicate RequestGuard(c: Config, r: Requests, ctxDone: bool, op: RequestOp) {
    match op
    case Accept(at) => HasReq(r, at, Started)
    case DecodeFails(at) => HasReq(r, at, Running) && !Decodes(c, r.reqs[at].req.input)
    case HandlerReturns(at, _) => HasReq(r, at, Running) && Decodes(c, r.reqs[at].req.input)
    case Decide(at) => HasReq(r, at, Ran) && r.reqs[at].outcome.Some?
    case Respond(at) => CanRespond(r, at)
    case RespondFails(at) => CanRespond(r, at) && ctxDone
    case RemoveCancel(at) => HasReq(r, at, Removing)
  }

  function RequestEffect(c: Config, r: Requests, ctxDone: bool, pos: nat, op: RequestOp): Requests
    requires RequestGuard(c, r, ctxDone, op)
  {
    match op
    case Accept(at) => DoAccept(c, r, at)
    case DecodeFails(at) => SetReqPc(r, at, Removing)
    case HandlerReturns(at, outcome) => DoReturn(r, at, outcome)
    case Decide(at) => DoDecide(r, at)
    case Respond(at) => DoRespond(r, at, pos)
    case RespondFails(at) => SetReqPc(r, at, AfterRespond(r.reqs[at].req))
    case RemoveCancel(at) => DoRemoveCancel(r, at)
  }

  /** What a step of processRequest does to the stream table: a request to open a stream
      registers it, and starts its handler when it is done. */
  function RequestOnTable(c: Config, r: Requests, t: Table, op: RequestOp): Table {
    match op
    case Accept(at) => if at in r.reqs then AcceptStream(c, t, r.reqs[at].req, at) else t
    case Respond(at) => if at in r.reqs then StartHandler(t, r.reqs[at].req) else t
    case RespondFails(at) => if at in r.reqs then StartHandler(t, r.reqs[at].req) else t
    case _ => t
  }

  function RequestEmits(r: Requests, op: RequestOp): seq<Packet> {
    match op
    case Respond(at) =>
      if CanRespond(r, at) then [Response(r.reqs[at].req.id, r.reqs[at].pc.out, r.reqs[at].pc.error)] else []
    case _ => []
  }

  predicate StreamGuard(v: Invokes, t: Table, ctxDone: bool, op: StreamOp) {
    match op
    case RegisterStream(sid) => CanRegister(v, t, sid)
    case Send(k, _) => CanStartSend(t, k)
    case CloseStream(k, _) => CanStartSend(t, k)
    case FinishClose(k) => CanFinishClose(t, k)
    case HandlerEnds(k, _) => CanEndHandler(t, k)
    case Recv(k) => CanRecv(t, k)
    case FlushStream(k) => CanFlush(t, k)
    case FlushFails(k) => CanFlush(t, k) && ctxDone
    case EndStream(k) => CanEndStream(t, k)
  }

  function StreamEffect(v: Invokes, t: Table, ctxDone: bool, op: StreamOp): Table
    requires StreamGuard(v, t, ctxDone, op)
  {
    match op
    case RegisterStream(sid) => DoRegister(t, sid, v.opens[sid].rid)
    case Send(k, any) => SetObj(t, k, StartSend(t.objs[k], Data(any)))
    case CloseStream(k, error) => SetObj(t, k, t.objs[k].(closing := Some(CloseMsg(error))))
    case FinishClose(k) => SetObj(t, k, DoFinishClose(t.objs[k]))
    case HandlerEnds(k, how) => SetObj(t, k, DoEndHandler(t.objs[k], how))
    case Recv(k) => SetObj(t, k, DoRecv(t.objs[k]))
    case FlushStream(k) => SetObj(t, k, t.objs[k].(pending := None))
    case FlushFails(k) => SetObj(t, k, DoFlushFails(t.objs[k]))
    case EndStream(k) => SetObj(t, k, t.objs[k].(owner := Gone)).(live := t.live - {k})
  }

  function StreamEmits(t: Table, op: StreamOp): seq<Packet> {
    match op
    case FlushStream(k) => if CanFlush(t, k) then [StreamPacket(t.objs[k].pending.value)] else []
    case _ => []
  }

  predicate LinkGuard(cap: nat, io: Io, peer: Io, op: LinkOp) {
    match op
    case Read => io.reading && io.read < peer.written <= |peer.out|
    case Write => io.writing && io.written < |io.out| && io.written < peer.read + cap
    case EndCtx => true
    case StopReader => true
    case StopWriter => true
    case Cleanup => !io.reading && !io.cleaned
  }

  /** readWsMessage: requests and responses start goroutines, the rest is done in place. */
  function DoRead(e: Endpoint, p: Packet): Endpoint {
    var at := e.io.read;
    var e' := e.(io := e.io.(read := at + 1));
    match p
    case Request(req) => e'.(srv := SpawnReq(e.srv, at, req))
    case Response(id, out, error) => e'.(inv := SpawnResp(e.inv, at, Resp(id, out, error, Arrived)))
    case StreamPacket(m) => e'.(str := Dispatch(e.str, m))
    case CtxCancel(id, cause) => e'.(srv := DoCancel(e.srv, id, cause))
  }

  function LinkEffect(cap: nat, e: Endpoint, peer: Io, op: LinkOp): Endpoint
    requires LinkGuard(cap, e.io, peer, op)
  {
    match op
    case Read => DoRead(e, peer.out[e.io.read])
    case Write => e.(io := e.io.(written := e.io.written + 1))
    case EndCtx => e.(io := e.io.(ctxDone := true))
    case StopReader => e.(io := e.io.(reading := false))
    case StopWriter => e.(io := e.io.(writing := false))
    case Cleanup => e.(str := DoCleanup(e.str), io := e.io.(cleaned := true))
  }

  function Emits(e: Endpoint, op: Op): seq<Packet> {
    match op
    case OfCall(o) => CallEmits(e.inv, o)
    case OfRequest(o) => RequestEmits(e.srv, o)
    case OfStream(o) => StreamEmits(e.str, o)
    case OfLink(_) => []
  }

  predicate Guard(c: Config, cap: nat, e: Endpoint, peer: Io, op: Op) {
    CanEmit(e.io, Emits(e, op)) &&
    match op
    case OfCall(o) => CallGuard(e.inv, e.io.ctxDone, o)
    case OfRequest(o) => RequestGuard(c, e.srv, e.io.ctxDone, o)
    case OfStream(o) => StreamGuard(e.inv, e.str, e.io.ctxDone, o)
    case OfLink(o) => LinkGuard(cap, e.io, peer, o)
  }

  function Effect(c: Config, cap: nat, e: Endpoint, peer: Io, op: Op): Endpoint
    requires Guard(c, cap, e, peer, op)
  {
    match op
    case OfCall(o) =>
      e.(inv := CallEffect(e.inv, e.io.ctxDone, |e.io.out|, o), io := Emit(e.io, Emits(e, op)))
    case OfRequest(o) =>
      e.(srv := RequestEffect(c, e.srv, e.io.ctxDone, |e.io.out|, o),
         str := RequestOnTable(c, e.srv, e.str, o),
         io := Emit(e.io, Emits(e, op)))
    case OfStream(o) =>
      e.(str := StreamEffect(e.inv, e.str, e.io.ctxDone, o), io := Emit(e.io, Emits(e, op)))
    case OfLink(o) => LinkEffect(cap, e, peer, o)
  }

  // ---------------------------------------------------------------- runs

  datatype Action = Action(x: End, op: Op)

  predicate Enabled(w: World, s: Sys, act: Action) {
    Guard(w.Of(act.x), w.cap, s.Of(act.x), s.Of(PeerOf(act.x)).io, act.op)
  }

  function Step(w: World, s: Sys, act: Action): Sys
    requires Enabled(w, s, act)
  {
    s.With(act.x, Effect(w.Of(act.x), w.cap, s.Of(act.x), s.Of(PeerOf(act.x)).io, act.op))
  }

  /** Running the actions in order; None when one of them is not enabled. */
  function Run(w: World, s: Sys, acts: seq<Action>): Option<Sys>
    decreases |acts|
  {
    if acts == [] then Some(s)
    else if Enabled(w, s, acts[0]) then Run(w, Step(w, s, acts[0]), acts[1..])
    else None
  }
}
