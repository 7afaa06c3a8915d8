/** What every step keeps about one endpoint's outgoing calls: ids, the `invokes` map, the
    result channels and invokesMu (xrpc/conn.go:455-471 and 561-706). */
module CallInvariants {
  import opened Packets
  import opened Protocol

  /** The call is in `invokes`: registered and not yet unregistered. */
  predicate InWindow(pc: CallPc) {
    pc.Registered? || pc.Handed? || pc.Waiting? || pc.Cancelling? || pc.Leaving? || pc.DelLock?
  }

  predicate AtLock(pc: CallPc) {
    pc.RegLock? || pc.DelLock?
  }

  /** What a call sends follows from its kind; NewStream owns the call it made. */
  predicate KindFits(opens: map<nat, Opening>, id: nat, c: Call) {
    match c.kind
    case Unary => c.input.Message?
    case Notify => c.input.Message? && (c.pc.Fresh? || c.pc.Returned?)
    case Opens(sid) =>
      sid in opens && opens[sid] == InvokedAs(id) && c.service == "" &&
      c.input.OpenStream? && c.input.streamId == sid
  }

  /** The channel is made before registration and closed by the deferred function. */
  predicate ChanFits(chans: map<nat, Chan>, id: nat, c: Call) {
    if c.kind.Notify? || c.pc.Fresh? then id !in chans
    else id in chans && (chans[id].ChanClosed? <==> c.pc.Returned?)
  }

  predicate CallFits(v: Invokes, id: nat)
    requires id in v.calls
  {
    var c := v.calls[id];
    && 1 <= id <= v.lastId
    && KindFits(v.opens, id, c)
    && (id in v.invokes <==> InWindow(c.pc))
    && (v.announced == Some(id) <==> AtLock(c.pc))
    && ChanFits(v.chans, id, c)
  }

  ghost predicate EachCallFits(v: Invokes) {
    forall id | id in v.calls :: CallFits(v, id)
  }

  ghost predicate OpensOk(v: Invokes) {
    forall sid | sid in v.opens ::
      1 <= sid <= v.lastId &&
      (v.opens[sid].InvokedAs? ==>
         v.opens[sid].rid in v.calls && v.calls[v.opens[sid].rid].kind == Opens(sid))
  }

  ghost predicate KnownCalls(v: Invokes) {
    && v.lastId < ID_SPACE
    && v.invokes <= v.calls.Keys
    && v.chans.Keys <= v.calls.Keys
    && (v.announced.Some? ==> v.announced.value in v.calls)
  }

  /** The readers of invokesMu are the responses being sent, each to a registered call. */
  ghost predicate ReadersOk(v: Invokes) {
    && (forall at :: at in v.readers <==> at in v.resps && v.resps[at].pc.Sending?)
    && (forall at | at in v.readers :: v.resps[at].id in v.invokes)
  }

  ghost predicate CallsOk(v: Invokes) {
    EachCallFits(v) && OpensOk(v) && KnownCalls(v) && ReadersOk(v)
  }

  /** The call a step acts on. */
  function Subject(v: Invokes, op: CallOp): nat {
    match op
    case Announce(id) => id
    case Grant(id) => id
    case SendRequest(id) => id
    case Arrive(id) => id
    case CtxEnds(id) => id
    case SendCancel(id, _) => id
    case ServeEnds(id) => id
    case HandOver(at) => if at in v.resps then v.resps[at].id else 0
    case _ => 0
  }

  /** The next id is not in use. */
  predicate NextIsNew(v: Invokes) {
    var next := v.lastId + 1;
    next !in v.calls && next !in v.invokes && next !in v.chans && v.announced != Some(next) && next !in v.opens
  }

  predicate TakesId(op: CallOp) {
    op.StartCall? || op.StartOpen? || op.OpenInvoke?
  }

  predicate MovesLock(op: CallOp) {
    op.Announce? || op.Grant?
  }

  lemma CallFitsAfterId(v: Invokes, ctxDone: bool, pos: nat, op: CallOp, id: nat)
    requires TakesId(op) && CallGuard(v, ctxDone, op) && id in CallEffect(v, ctxDone, pos, op).calls
    requires (id in v.calls ==> CallFits(v, id)) && NextIsNew(v)
    ensures CallFits(CallEffect(v, ctxDone, pos, op), id)
  {
  }

  lemma CallFitsAfterLock(v: Invokes, ctxDone: bool, pos: nat, op: CallOp, id: nat)
    requires MovesLock(op) && CallGuard(v, ctxDone, op) && id in CallEffect(v, ctxDone, pos, op).calls
    requires (id in v.calls ==> CallFits(v, id)) && CallFits(v, op.id)
    ensures CallFits(CallEffect(v, ctxDone, pos, op), id)
  {
    hide CallFits;
    if op.Announce? { CallFitsAnnounced(v, op.id, id); } else { CallFitsGranted(v, op.id, id); }
  }

  lemma CallFitsAnnounced(v: Invokes, locker: nat, id: nat)
    requires CanAnnounce(v, locker) && id in v.calls && CallFits(v, id) && CallFits(v, locker)
    ensures CallFits(DoAnnounce(v, locker), id)
  {
  }

  lemma CallFitsGranted(v: Invokes, locker: nat, id: nat)
    requires CanGrant(v, locker) && id in v.calls && CallFits(v, id) && CallFits(v, locker)
    ensures CallFits(DoGrant(v, locker), id)
  {
  }

  lemma CallFitsAfterMove(v: Invokes, ctxDone: bool, pos: nat, op: CallOp, id: nat)
    requires !TakesId(op) && !MovesLock(op) && CallGuard(v, ctxDone, op) && id in CallEffect(v, ctxDone, pos, op).calls
    requires (id in v.calls ==> CallFits(v, id)) && (Subject(v, op) in v.calls ==> CallFits(v, Subject(v, op)))
    ensures CallFits(CallEffect(v, ctxDone, pos, op), id)
  {
  }

  lemma CallFitsKept(v: Invokes, ctxDone: bool, pos: nat, op: CallOp, id: nat)
    requires CallGuard(v, ctxDone, op) && id in CallEffect(v, ctxDone, pos, op).calls
    requires id in v.calls ==> CallFits(v, id)
    requires Subject(v, op) in v.calls ==> CallFits(v, Subject(v, op))
    requires NextIsNew(v)
    ensures CallFits(CallEffect(v, ctxDone, pos, op), id)
  {
    hide CallFits, CallEffect, NextIsNew;
    if TakesId(op) { CallFitsAfterId(v, ctxDone, pos, op, id); }
    else if MovesLock(op) { CallFitsAfterLock(v, ctxDone, pos, op, id); }
    else { CallFitsAfterMove(v, ctxDone, pos, op, id); }
  }

  lemma CallsKept(v: Invokes, ctxDone: bool, pos: nat, op: CallOp)
    requires CallsOk(v) && CallGuard(v, ctxDone, op)
    ensures CallsOk(CallEffect(v, ctxDone, pos, op))
  {
    assert NextIsNew(v);
    hide CallFits, NextIsNew, KnownCalls, ReadersOk, OpensOk;
    var w := CallEffect(v, ctxDone, pos, op);
    forall id | id in w.calls ensures CallFits(w, id) {
      CallFitsKept(v, ctxDone, pos, op, id);
    }
    OpensKept(v, ctxDone, pos, op);
    KnownCallsKept(v, ctxDone, pos, op);
    ReadersKept(v, ctxDone, pos, op);
  }

  lemma SpawnRespKeeps(v: Invokes, at: nat, r: Resp)
    requires CallsOk(v) && at !in v.resps && r.pc.Arrived?
    ensures CallsOk(SpawnResp(v, at, r))
  {
    var w := SpawnResp(v, at, r);
    forall id | id in w.calls ensures CallFits(w, id) {
      assert CallFits(v, id);
    }
  }

  lemma OpensKept(v: Invokes, ctxDone: bool, pos: nat, op: CallOp)
    requires CallsOk(v) && CallGuard(v, ctxDone, op)
    ensures OpensOk(CallEffect(v, ctxDone, pos, op))
  {
    assert v.lastId + 1 !in v.calls;
    hide EachCallFits, KnownCalls, ReadersOk, OpensOk, CallEffect;
    if TakesId(op) { OpensAfterId(v, ctxDone, pos, op); } else { OpensAfterMove(v, ctxDone, pos, op); }
  }

  lemma OpensAfterId(v: Invokes, ctxDone: bool, pos: nat, op: CallOp)
    requires OpensOk(v) && v.lastId + 1 !in v.calls && TakesId(op) && CallGuard(v, ctxDone, op)
    ensures OpensOk(CallEffect(v, ctxDone, pos, op))
  {
  }

  lemma OpensAfterMove(v: Invokes, ctxDone: bool, pos: nat, op: CallOp)
    requires OpensOk(v) && !TakesId(op) && CallGuard(v, ctxDone, op)
    ensures OpensOk(CallEffect(v, ctxDone, pos, op))
  {
    MoveKeepsKinds(v, ctxDone, pos, op);
    MoveKeepsOpens(v, ctxDone, pos, op);
    hide CallEffect, CallGuard;
  }

  lemma MoveKeepsOpens(v: Invokes, ctxDone: bool, pos: nat, op: CallOp)
    requires !TakesId(op) && CallGuard(v, ctxDone, op)
    ensures CallEffect(v, ctxDone, pos, op).opens == v.opens && CallEffect(v, ctxDone, pos, op).lastId == v.lastId
  {
  }

  lemma MoveKeepsKinds(v: Invokes, ctxDone: bool, pos: nat, op: CallOp)
    requires !TakesId(op) && CallGuard(v, ctxDone, op)
    ensures forall id | id in v.calls ::
              id in CallEffect(v, ctxDone, pos, op).calls
              && CallEffect(v, ctxDone, pos, op).calls[id].kind == v.calls[id].kind
  {
    hide CallEffect, CallGuard;
    if MovesLock(op) { LockKeepsKinds(v, ctxDone, pos, op); } else { OtherMoveKeepsKinds(v, ctxDone, pos, op); }
  }

  lemma LockKeepsKinds(v: Invokes, ctxDone: bool, pos: nat, op: CallOp)
    requires MovesLock(op) && CallGuard(v, ctxDone, op)
    ensures forall id | id in v.calls ::
              id in CallEffect(v, ctxDone, pos, op).calls
              && CallEffect(v, ctxDone, pos, op).calls[id].kind == v.calls[id].kind
  {
    if op.Announce? { AnnounceKeepsKinds(v, op.id); } else { GrantKeepsKinds(v, op.id); }
    hide DoAnnounce, DoGrant;
  }

  lemma AnnounceKeepsKinds(v: Invokes, locker: nat)
    requires CanAnnounce(v, locker)
    ensures forall id | id in v.calls ::
              id in DoAnnounce(v, locker).calls && DoAnnounce(v, locker).calls[id].kind == v.calls[id].kind
  {
  }

  lemma GrantKeepsKinds(v: Invokes, locker: nat)
    requires CanGrant(v, locker)
    ensures forall id | id in v.calls ::
              id in DoGrant(v, locker).calls && DoGrant(v, locker).calls[id].kind == v.calls[id].kind
  {
  }

  lemma OtherMoveKeepsKinds(v: Invokes, ctxDone: bool, pos: nat, op: CallOp)
    requires !TakesId(op) && !MovesLock(op) && CallGuard(v, ctxDone, op)
    ensures forall id | id in v.calls ::
              id in CallEffect(v, ctxDone, pos, op).calls
              && CallEffect(v, ctxDone, pos, op).calls[id].kind == v.calls[id].kind
  {
  }

  lemma KnownCallsKept(v: Invokes, ctxDone: bool, pos: nat, op: CallOp)
    requires CallsOk(v) && CallGuard(v, ctxDone, op)
    ensures KnownCalls(CallEffect(v, ctxDone, pos, op))
  {
    hide ReadersOk, OpensOk, CallFits;
  }

  lemma ReadersKept(v: Invokes, ctxDone: bool, pos: nat, op: CallOp)
    requires CallsOk(v) && CallGuard(v, ctxDone, op)
    ensures ReadersOk(CallEffect(v, ctxDone, pos, op))
  {
    hide CallFits, OpensOk, KnownCalls, ReadersOk, CallEffect, CallGuard;
    if op.LockResponse? || op.HandOver? { ReadersAfterResponse(v, ctxDone, pos, op); }
    else { ReadersAfterCall(v, ctxDone, pos, op); }
  }

  lemma ReadersAfterResponse(v: Invokes, ctxDone: bool, pos: nat, op: CallOp)
    requires ReadersOk(v) && CallGuard(v, ctxDone, op) && (op.LockResponse? || op.HandOver?)
    ensures ReadersOk(CallEffect(v, ctxDone, pos, op))
  {
  }

  lemma ReadersAfterCall(v: Invokes, ctxDone: bool, pos: nat, op: CallOp)
    requires ReadersOk(v) && CallGuard(v, ctxDone, op) && !op.LockResponse? && !op.HandOver?
    ensures ReadersOk(CallEffect(v, ctxDone, pos, op))
  {
  }
}
