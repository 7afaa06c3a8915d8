/** Streams from hand to hand: what a user passes to SendMsg, CloseWithError or a handler returns is the
    message that joins the sent history, with the number, stream and side it must have, and it is what
    the peer's RecvMsg returns at that place (xrpc/stream.go:104-204, xrpc/conn.go:473-488). */
module StreamInputs {
  import opened Packets
  import opened Streams
  import opened Protocol
  import opened CallInvariants
  import opened WireInvariants
  import opened StreamInvariants
  import opened StreamOrder
  import opened Invariants
  import opened CallGuarantees
  import opened StreamGuarantees
  import opened Continuations
  import opened EndToEnd
  import opened Arrival

  // ---------------------------------------------------------------- the history of a sender only grows

  /** While serve's context is alive nothing leaves the history. */
  predicate SentGrows(t: Table, t': Table, k: Key)
    requires k in t.objs
  {
    k in t'.objs && t.objs[k].sent <= t'.objs[k].sent
  }

  lemma StreamSentGrows(v: Invokes, t: Table, op: StreamOp, k: Key)
    requires StreamGuard(v, t, false, op) && k in t.objs
    ensures SentGrows(t, StreamEffect(v, t, false, op), k)
  {
  }

  lemma RequestSentGrows(c: Config, e: Endpoint, op: RequestOp, k: Key)
    requires RequestGuard(c, e.srv, e.io.ctxDone, op) && k in e.str.objs
    requires Registers(c, e.srv, op) ==> Key(ServerSide, e.srv.reqs[op.at].req.input.streamId) !in e.str.objs
    ensures SentGrows(e.str, RequestOnTable(c, e.srv, e.str, op), k)
  {
  }

  lemma LinkSentGrows(cap: nat, e: Endpoint, peer: Io, op: LinkOp, k: Key)
    requires LinkGuard(cap, e.io, peer, op) && k in e.str.objs
    ensures SentGrows(e.str, LinkEffect(cap, e, peer, op).str, k)
  {
    hide Deliver, DoCancel;
  }

  lemma StepSentGrows(c: Config, cap: nat, e: Endpoint, p: Endpoint, op: Op, k: Key)
    requires Good(e, p) && Guard(c, cap, e, p.io, op) && k in e.str.objs && !e.io.ctxDone
    ensures SentGrows(e.str, Effect(c, cap, e, p.io, op).str, k)
  {
    hide Local, Shared, RequestOnTable, StreamEffect, LinkEffect, RequestEffect;
    match op
    case OfCall(_) =>
    case OfRequest(o) =>
      if Registers(c, e.srv, o) { AcceptedStreamIsFresh(c, e, p, o.at); }
      RequestSentGrows(c, e, o, k);
    case OfStream(o) => StreamSentGrows(e.inv, e.str, o, k);
    case OfLink(o) => LinkSentGrows(cap, e, p.io, o, k);
  }

  lemma {:induction false} RunSentGrows(w: World, s: Sys, acts: seq<Action>, x: End, k: Key)
    requires Fine(s) && Run(w, s, acts).Some? && k in s.Of(x).str.objs && !Run(w, s, acts).value.Of(x).io.ctxDone
    ensures SentGrows(s.Of(x).str, Run(w, s, acts).value.Of(x).str, k)
    decreases |acts|
  {
    hide Fine, Good, AllFollow, Guard, Effect;
    RunGrows(w, s, acts, x);
    if acts != [] {
      var act := acts[0];
      StepKeepsFine(w, s, act);
      FineAt(s, act.x);
      StepGrows(w.Of(act.x), w.cap, s.Of(act.x), s.Of(PeerOf(act.x)).io, act.op);
      RunGrows(w, Step(w, s, act), acts[1..], x);
      if act.x == x { StepSentGrows(w.Of(x), w.cap, s.Of(x), s.Of(PeerOf(x)), act.op, k); }
      RunSentGrows(w, Step(w, s, act), acts[1..], x, k);
    }
  }

  // ---------------------------------------------------------------- what one step sends

  /** Message number `n` of stream end `k`, counting from nought. */
  function Numbered(k: Key, n: nat, payload: Payload): StreamMsg {
    StreamMsg(k.id, k.side, (n + 1) % 0x1_0000_0000_0000_0000, payload)
  }

  lemma NextIs(e: Endpoint, p: Endpoint, k: Key, payload: Payload)
    requires Good(e, p) && k in e.str.objs && !e.io.ctxDone
    ensures NextMsg(e.str.objs[k].st, payload) == Numbered(k, |e.str.objs[k].sent|, payload)
  {
    hide Good;
    SenderState(e, p, k);
    NextSeq(|e.str.objs[k].sent|);
  }

  lemma SenderState(e: Endpoint, p: Endpoint, k: Key)
    requires Good(e, p) && k in e.str.objs && !e.io.ctxDone
    ensures var o := e.str.objs[k]; o.st.id == k.id && o.st.side == k.side && o.st.sendSeq == |o.sent| % ID_SPACE
  {
    assert ObjOk(e.str.objs[k], k, e.io.out, e.io.ctxDone);
    hide Local, Shared, ObjQueue, ObjClose, ObjGraceful, SentBy, ClosesLast;
  }

  lemma SendIs(w: World, s: Sys, x: End, k: Key, any: Any)
    requires Enabled(w, s, Action(x, OfStream(Send(k, any))))
    ensures var t := Step(w, s, Action(x, OfStream(Send(k, any)))).Of(x).str;
            && k in s.Of(x).str.objs && s.Of(x).str.objs[k].st.active && k in t.objs
            && t.objs[k].sent == s.Of(x).str.objs[k].sent + [NextMsg(s.Of(x).str.objs[k].st, Data(any))]
  {
    hide NextMsg;
  }

  /** The peer's end `o` of a stream end that sent a message at position `n`: once it has received that
      many since its registration, the message is what it received there. */
  predicate ReceivesAt(o: Obj, n: nat, payload: Payload) {
    o.base <= n && n - o.base < |o.received| ==> o.received[n - o.base].payload == payload
  }

  lemma ReceivedAt(e: Endpoint, p: Endpoint, k: Key, n: nat)
    requires Good(e, p) && k in e.str.live && k in e.str.objs
    requires Mirror(k) in p.str.objs && n < |p.str.objs[Mirror(k)].sent|
    ensures ReceivesAt(e.str.objs[k], n, p.str.objs[Mirror(k)].sent[n].payload)
  {
    hide Good, InFlight;
    ReceivedPart(e, p, k);
  }

  /** Data before any close stands in the list of data at its own place. */
  lemma {:induction false} DataAt(ms: seq<StreamMsg>, i: nat)
    requires i < |ms| && forall j | 0 <= j <= i :: ms[j].payload.Data?
    ensures i < |DataOf(ms)| && DataOf(ms)[i] == ms[i].payload.any
    decreases |ms|
  {
    var n := |ms| - 1;
    if i < n {
      assert forall j | 0 <= j <= i :: ms[..n][j] == ms[j];
      DataAt(ms[..n], i);
    } else {
      assert forall m | m in ms[..n] :: m.payload.Data?;
      DataOfAll(ms[..n]);
    }
  }

  function Sending(x: End, k: Key, any: Any): Action {
    Action(x, OfStream(Send(k, any)))
  }

  /** SendMsg: the message passed in becomes the next one of the stream, with the stream's number, its
      side and the next sequence number. As long as serve's context is alive it stays at that place of
      the history in every continuation, and the peer's end, while it is registered, receives it and
      nothing else at that place. */
  lemma MessageIsAsPassed(w: World, s: Sys, x: End, k: Key, any: Any, acts: seq<Action>)
    requires Reachable(w, s) && Enabled(w, s, Sending(x, k, any)) && Run(w, Step(w, s, Sending(x, k, any)), acts).Some?
    requires !Run(w, Step(w, s, Sending(x, k, any)), acts).value.Of(x).io.ctxDone
    ensures k in s.Of(x).str.objs
    ensures var t, n := Run(w, Step(w, s, Sending(x, k, any)), acts).value, |s.Of(x).str.objs[k].sent|;
            && k in t.Of(x).str.objs && n < |t.Of(x).str.objs[k].sent|
            && t.Of(x).str.objs[k].sent[..n] == s.Of(x).str.objs[k].sent
            && t.Of(x).str.objs[k].sent[n] == Numbered(k, n, Data(any))
            && (forall i | 0 <= i < n :: t.Of(x).str.objs[k].sent[i].payload.Data?)
            && (Mirror(k) in t.Of(PeerOf(x)).str.live && Mirror(k) in t.Of(PeerOf(x)).str.objs ==>
                  ReceivesAt(t.Of(PeerOf(x)).str.objs[Mirror(k)], n, Data(any)))
  {
    var act := Sending(x, k, any);
    hide Run, Step, Enabled, Fine, Reachable, Sending, ReceivesAt, Numbered;
    Reached(w, s, act, acts);
    ContextWasAlive(w, s, act, acts, x);
    SentNow(w, s, x, k, any);
    var before := s.Of(x).str.objs[k].sent;
    StaysSent(w, Step(w, s, act), acts, x, k, before, Numbered(k, |before|, Data(any)));
    DataStays(before, Run(w, Step(w, s, act), acts).value.Of(x).str.objs[k].sent);
    NumberedPayload(k, |before|, Data(any));
  }

  lemma DataStays(before: seq<StreamMsg>, sent: seq<StreamMsg>)
    requires (forall m | m in before :: m.payload.Data?) && |before| <= |sent| && sent[..|before|] == before
    ensures forall i | 0 <= i < |before| :: sent[i].payload.Data?
  {
    forall i | 0 <= i < |before| ensures sent[i].payload.Data? { assert sent[i] == before[i]; }
  }

  lemma SentNow(w: World, s: Sys, x: End, k: Key, any: Any)
    requires Reachable(w, s) && Enabled(w, s, Sending(x, k, any)) && !s.Of(x).io.ctxDone
    ensures k in s.Of(x).str.objs && k in Step(w, s, Sending(x, k, any)).Of(x).str.objs
    ensures var before := s.Of(x).str.objs[k].sent;
            && Step(w, s, Sending(x, k, any)).Of(x).str.objs[k].sent == before + [Numbered(k, |before|, Data(any))]
            && forall m | m in before :: m.payload.Data?
  {
    SendIs(w, s, x, k, any);
    hide Step, Enabled, Fine, Good, AllFollow, Reachable, NextMsg, Numbered;
    ReachableFine(w, s);
    FineAt(s, x);
    NextIs(s.Of(x), s.Of(PeerOf(x)), k, Data(any));
    SentBeforeClose(s.Of(x), s.Of(PeerOf(x)), k);
  }

  lemma NumberedPayload(k: Key, n: nat, payload: Payload)
    ensures Numbered(k, n, payload).payload == payload
  {
  }

  /** A message that was sent stays at its place, and is what the peer's end receives there. */
  lemma StaysSent(w: World, s: Sys, acts: seq<Action>, x: End, k: Key, before: seq<StreamMsg>, m: StreamMsg)
    requires Fine(s) && Run(w, s, acts).Some? && !Run(w, s, acts).value.Of(x).io.ctxDone
    requires k in s.Of(x).str.objs && s.Of(x).str.objs[k].sent == before + [m]
    ensures var t, n := Run(w, s, acts).value, |before|;
            && k in t.Of(x).str.objs && n < |t.Of(x).str.objs[k].sent|
            && t.Of(x).str.objs[k].sent[..n] == before && t.Of(x).str.objs[k].sent[n] == m
            && (Mirror(k) in t.Of(PeerOf(x)).str.live && Mirror(k) in t.Of(PeerOf(x)).str.objs ==>
                  ReceivesAt(t.Of(PeerOf(x)).str.objs[Mirror(k)], n, m.payload))
  {
    hide Run, Fine, Good, AllFollow, ReceivesAt;
    RunSentGrows(w, s, acts, x, k);
    RunKeepsFine(w, s, acts);
    var t := Run(w, s, acts).value;
    assert before + [m] <= t.Of(x).str.objs[k].sent;
    ReceivedInRun(w, t, x, k, |before|);
  }

  lemma ContextWasAlive(w: World, s: Sys, act: Action, acts: seq<Action>, x: End)
    requires Enabled(w, s, act) && Run(w, Step(w, s, act), acts).Some?
    requires !Run(w, Step(w, s, act), acts).value.Of(x).io.ctxDone
    ensures !s.Of(x).io.ctxDone && !Step(w, s, act).Of(x).io.ctxDone
  {
    hide Guard, Effect, Run;
    RunGrows(w, Step(w, s, act), acts, x);
    StepGrows(w.Of(act.x), w.cap, s.Of(act.x), s.Of(PeerOf(act.x)).io, act.op);
  }

  lemma ReceivedInRun(w: World, t: Sys, x: End, k: Key, n: nat)
    requires Fine(t) && k in t.Of(x).str.objs && n < |t.Of(x).str.objs[k].sent|
    ensures Mirror(k) in t.Of(PeerOf(x)).str.live && Mirror(k) in t.Of(PeerOf(x)).str.objs ==>
              ReceivesAt(t.Of(PeerOf(x)).str.objs[Mirror(k)], n, t.Of(x).str.objs[k].sent[n].payload)
  {
    hide Fine, Good, AllFollow, ReceivesAt;
    FineAt(t, PeerOf(x));
    assert Mirror(Mirror(k)) == k;
    if Mirror(k) in t.Of(PeerOf(x)).str.live && Mirror(k) in t.Of(PeerOf(x)).str.objs {
      ReceivedAt(t.Of(PeerOf(x)), t.Of(x), Mirror(k), n);
    }
  }

  /** And it arrives: when an undisturbed run has come to rest, the peer's end, if it is registered and its
      registration did not miss the message, has received it at that place, after exactly the messages
      before it; RecvMsg returns it there. A server end never misses one. */
  lemma MessageArrives(w: World, s: Sys, x: End, k: Key, any: Any, acts: seq<Action>)
    requires Reachable(w, s) && Enabled(w, s, Sending(x, k, any)) && Run(w, Step(w, s, Sending(x, k, any)), acts).Some?
    requires var t := Run(w, Step(w, s, Sending(x, k, any)), acts).value;
             Settled(w, t) && Mirror(k) in t.Of(PeerOf(x)).str.live && Mirror(k) in t.Of(PeerOf(x)).str.objs
    requires !Run(w, Step(w, s, Sending(x, k, any)), acts).value.Of(PeerOf(x)).str.objs[Mirror(k)].closedLocally
    ensures k in s.Of(x).str.objs
    ensures var o := Run(w, Step(w, s, Sending(x, k, any)), acts).value.Of(PeerOf(x)).str.objs[Mirror(k)];
            var n := |s.Of(x).str.objs[k].sent|;
            && (k.side.ClientSide? ==> o.base == 0)
            && (o.base <= n ==>
                  && n - o.base < |DataOf(o.received)| && DataOf(o.received)[n - o.base] == any
                  && (n - o.base < |o.outcomes| ==> o.outcomes[n - o.base] == Got(any)))
  {
    var act := Sending(x, k, any);
    hide Run, Step, Enabled, Fine, Good, AllFollow, Reachable, Sending, Settled, Delivers, ReceivesAt, DataOf, GotsOf;
    hide FirstClose, ClosesLast, InFlight, Graceful;
    var t := Run(w, Step(w, s, act), acts).value;
    SettledDelivers(w, t, x);
    SettledIsOpen(w, t, x);
    MessageIsAsPassed(w, s, x, k, any, acts);
    assert Mirror(Mirror(k)) == k;
    ClosesArrive(w, t, PeerOf(x), Mirror(k));
    if k.side.ClientSide? { ServerBase(w, t, PeerOf(x), Mirror(k)); }
    ReceivedThere(t.Of(PeerOf(x)).str.objs[Mirror(k)], t.Of(x).str.objs[k].sent, |s.Of(x).str.objs[k].sent|, any);
  }

  /** What a receiver that got all of `sent` from its base on has at the place of message `n`. */
  lemma ReceivedThere(o: Obj, sent: seq<StreamMsg>, n: nat, any: Any)
    requires n < |sent| && sent[n].payload == Data(any) && forall i | 0 <= i < n :: sent[i].payload.Data?
    requires o.base <= |sent| && o.received == sent[o.base..]
    requires Graceful(o.outcomes, DataOf(sent[o.base..]), FirstClose(sent[o.base..]))
    ensures o.base <= n ==>
              && n - o.base < |DataOf(o.received)| && DataOf(o.received)[n - o.base] == any
              && (n - o.base < |o.outcomes| ==> o.outcomes[n - o.base] == Got(any))
  {
    hide DataOf, FirstClose;
    if o.base <= n {
      assert forall j | 0 <= j <= n - o.base :: sent[o.base..][j] == sent[o.base + j];
      DataAt(sent[o.base..], n - o.base);
    }
  }

  lemma ServerBase(w: World, s: Sys, x: End, k: Key)
    requires Reachable(w, s) && k in s.Of(x).str.objs && k.side.ServerSide?
    ensures s.Of(x).str.objs[k].base == 0
  {
    GoodFrom(w, s, x);
    var e, p := s.Of(x), s.Of(PeerOf(x));
    assert RecvFits(e.str, p.io.out[..e.io.read], k);
    hide Good, Reachable;
  }

  // ---------------------------------------------------------------- closing

  /** The sending goroutine of `o` is on its way to send this close after `before`, or has done so. */
  predicate ClosesWith(o: Obj, before: seq<StreamMsg>, payload: Payload) {
    || (o.closing == Some(payload) && o.sent == before)
    || (|before| < |o.sent| && o.sent[..|before|] == before && o.sent[|before|].payload == payload)
  }

  lemma GrownClosesWith(o: Obj, o': Obj, before: seq<StreamMsg>, payload: Payload)
    requires o.sent <= o'.sent && |before| < |o.sent| && ClosesWith(o, before, payload) && o.closing != Some(payload)
    ensures ClosesWith(o', before, payload)
  {
  }

  lemma StreamClosesWith(v: Invokes, t: Table, op: StreamOp, k: Key, before: seq<StreamMsg>, payload: Payload)
    requires StreamGuard(v, t, false, op) && k in t.objs && ClosesWith(t.objs[k], before, payload)
    requires t.objs[k].closing.Some? ==> t.objs[k].pending.None?
    ensures k in StreamEffect(v, t, false, op).objs
    ensures ClosesWith(StreamEffect(v, t, false, op).objs[k], before, payload)
  {
  }

  lemma RequestClosesWith(c: Config, e: Endpoint, op: RequestOp, k: Key, before: seq<StreamMsg>, payload: Payload)
    requires RequestGuard(c, e.srv, e.io.ctxDone, op) && k in e.str.objs && ClosesWith(e.str.objs[k], before, payload)
    requires Registers(c, e.srv, op) ==> Key(ServerSide, e.srv.reqs[op.at].req.input.streamId) !in e.str.objs
    ensures var t := RequestOnTable(c, e.srv, e.str, op); k in t.objs && ClosesWith(t.objs[k], before, payload)
  {
  }

  lemma LinkClosesWith(cap: nat, e: Endpoint, peer: Io, op: LinkOp, k: Key, before: seq<StreamMsg>, payload: Payload)
    requires LinkGuard(cap, e.io, peer, op) && k in e.str.objs && ClosesWith(e.str.objs[k], before, payload)
    ensures var t := LinkEffect(cap, e, peer, op).str; k in t.objs && ClosesWith(t.objs[k], before, payload)
  {
    hide Deliver, DoCancel;
  }

  lemma OneAtATime(e: Endpoint, p: Endpoint, k: Key)
    requires Good(e, p) && k in e.str.objs
    ensures e.str.objs[k].closing.Some? ==> e.str.objs[k].pending.None?
  {
    assert ObjOk(e.str.objs[k], k, e.io.out, e.io.ctxDone);
    hide Local, Shared, ObjQueue, ObjClose, ObjGraceful, ObjNumbered, SentBy, ClosesLast;
  }

  lemma StepClosesWith(c: Config, cap: nat, e: Endpoint, p: Endpoint, op: Op, k: Key, before: seq<StreamMsg>,
                       payload: Payload)
    requires Good(e, p) && Guard(c, cap, e, p.io, op) && !e.io.ctxDone
    requires k in e.str.objs && ClosesWith(e.str.objs[k], before, payload)
    ensures var t := Effect(c, cap, e, p.io, op).str; k in t.objs && ClosesWith(t.objs[k], before, payload)
  {
    OneAtATime(e, p, k);
    hide Local, Shared, ClosesWith, RequestOnTable, StreamEffect, LinkEffect, RequestEffect;
    match op
    case OfCall(_) =>
    case OfRequest(o) =>
      if Registers(c, e.srv, o) { AcceptedStreamIsFresh(c, e, p, o.at); }
      RequestClosesWith(c, e, o, k, before, payload);
    case OfStream(o) => StreamClosesWith(e.inv, e.str, o, k, before, payload);
    case OfLink(o) => LinkClosesWith(cap, e, p.io, o, k, before, payload);
  }

  lemma {:induction false} RunClosesWith(w: World, s: Sys, acts: seq<Action>, x: End, k: Key, before: seq<StreamMsg>,
                                         payload: Payload)
    requires Fine(s) && Run(w, s, acts).Some? && !Run(w, s, acts).value.Of(x).io.ctxDone
    requires k in s.Of(x).str.objs && ClosesWith(s.Of(x).str.objs[k], before, payload)
    ensures var t := Run(w, s, acts).value.Of(x).str; k in t.objs && ClosesWith(t.objs[k], before, payload)
    decreases |acts|
  {
    hide Fine, Good, AllFollow, Guard, Effect, ClosesWith;
    RunGrows(w, s, acts, x);
    if acts != [] {
      var act := acts[0];
      StepKeepsFine(w, s, act);
      FineAt(s, act.x);
      if act.x == x { StepClosesWith(w.Of(x), w.cap, s.Of(x), s.Of(PeerOf(x)), act.op, k, before, payload); }
      RunClosesWith(w, Step(w, s, act), acts[1..], x, k, before, payload);
    }
  }

  function Closing(x: End, k: Key, error: Option<string>): Action {
    Action(x, OfStream(CloseStream(k, error)))
  }

  lemma CloseBegins(w: World, s: Sys, x: End, k: Key, error: Option<string>)
    requires Enabled(w, s, Closing(x, k, error))
    ensures k in s.Of(x).str.objs && s.Of(x).str.objs[k].st.active
    ensures var t := Step(w, s, Closing(x, k, error)).Of(x).str;
            k in t.objs && ClosesWith(t.objs[k], s.Of(x).str.objs[k].sent,
                                      if error.None? then Close(0, "") else Close(2, error.value))
  {
  }

  /** CloseWithError, having found the stream open: as long as serve's context is alive, the next message of
      the stream is, in every continuation, a close with number 2 and the text passed in, or with
      number 0 and none; it is on its way, or stands right after what was sent before, all of it data. */
  lemma CloseIsAsPassed(w: World, s: Sys, x: End, k: Key, error: Option<string>, acts: seq<Action>)
    requires Reachable(w, s) && Enabled(w, s, Closing(x, k, error))
    requires Run(w, Step(w, s, Closing(x, k, error)), acts).Some?
    requires !Run(w, Step(w, s, Closing(x, k, error)), acts).value.Of(x).io.ctxDone
    ensures k in s.Of(x).str.objs && forall m | m in s.Of(x).str.objs[k].sent :: m.payload.Data?
    ensures var t := Run(w, Step(w, s, Closing(x, k, error)), acts).value.Of(x).str;
            k in t.objs && ClosesWith(t.objs[k], s.Of(x).str.objs[k].sent,
                                      if error.None? then Close(0, "") else Close(2, error.value))
  {
    var act := Closing(x, k, error);
    CloseBegins(w, s, x, k, error);
    hide Run, Step, Enabled, Fine, Good, AllFollow, Reachable, Closing, ClosesWith;
    ReachableFine(w, s);
    FineAt(s, x);
    SentBeforeClose(s.Of(x), s.Of(PeerOf(x)), k);
    Reached(w, s, act, acts);
    RunClosesWith(w, Step(w, s, act), acts, x, k, s.Of(x).str.objs[k].sent,
                  if error.None? then Close(0, "") else Close(2, error.value));
  }

  lemma {:induction false} FirstCloseAt(ms: seq<StreamMsg>, i: nat)
    requires i < |ms| && ms[i].payload.Close? && forall j | 0 <= j < i :: ms[j].payload.Data?
    ensures FirstClose(ms) == Some(ms[i].payload.error)
    decreases |ms|
  {
    var n := |ms| - 1;
    if i < n {
      assert forall j | 0 <= j <= i :: ms[..n][j] == ms[j];
      FirstCloseAt(ms[..n], i);
    } else {
      FirstCloseMember(ms[..n]);
    }
  }

  /** And it arrives: when an undisturbed run has come to rest, the peer's end, registered in time and not
      closed by its own side, is closed with that text. */
  lemma CloseArrives(w: World, s: Sys, x: End, k: Key, error: Option<string>, acts: seq<Action>)
    requires Reachable(w, s) && Enabled(w, s, Closing(x, k, error))
    requires Run(w, Step(w, s, Closing(x, k, error)), acts).Some?
    requires var t := Run(w, Step(w, s, Closing(x, k, error)), acts).value;
             Settled(w, t) && Mirror(k) in t.Of(PeerOf(x)).str.live && Mirror(k) in t.Of(PeerOf(x)).str.objs
    requires !Run(w, Step(w, s, Closing(x, k, error)), acts).value.Of(PeerOf(x)).str.objs[Mirror(k)].closedLocally
    ensures k in s.Of(x).str.objs
    ensures var o := Run(w, Step(w, s, Closing(x, k, error)), acts).value.Of(PeerOf(x)).str.objs[Mirror(k)];
            o.base <= |s.Of(x).str.objs[k].sent| ==>
              !o.st.active && o.st.remoteError == if error.None? then "" else error.value
  {
    var act := Closing(x, k, error);
    hide Run, Step, Enabled, Fine, Good, AllFollow, Reachable, Closing, Settled, DataOf, FirstClose, Graceful;
    hide InFlight, PendingOf, ClosesLast, SentBy;
    var t := Run(w, Step(w, s, act), acts).value;
    SettledDelivers(w, t, x);
    SettledIsOpen(w, t, x);
    CloseIsAsPassed(w, s, x, k, error, acts);
    NothingInFlight(t.Of(x), t.Of(PeerOf(x)).io, k);
    assert Mirror(Mirror(k)) == k;
    ClosesArrive(w, t, PeerOf(x), Mirror(k));
    var o, sent, n := t.Of(PeerOf(x)).str.objs[Mirror(k)], t.Of(x).str.objs[k].sent, |s.Of(x).str.objs[k].sent|;
    if o.base <= n {
      DataStays(s.Of(x).str.objs[k].sent, sent);
      assert forall j | 0 <= j <= n - o.base :: sent[o.base..][j] == sent[o.base + j];
      FirstCloseAt(sent[o.base..], n - o.base);
    }
  }

  /** A handler's return, at the step itself: an error is sent as a close with number 2 and its text, whether
      or not the stream is still open; nil begins a close with number 0 on an open stream; the close
      error, and nil on a closed stream, send nothing. */
  lemma HandlerEndIs(w: World, s: Sys, x: End, k: Key, how: HandlerEnd)
    requires Reachable(w, s) && Enabled(w, s, Action(x, OfStream(HandlerEnds(k, how)))) && !s.Of(x).io.ctxDone
    ensures k in s.Of(x).str.objs && k in Step(w, s, Action(x, OfStream(HandlerEnds(k, how)))).Of(x).str.objs
    ensures var o, o' := s.Of(x).str.objs[k], Step(w, s, Action(x, OfStream(HandlerEnds(k, how)))).Of(x).str.objs[k];
            && (how.WithError? ==> o'.sent == o.sent + [Numbered(k, |o.sent|, Close(2, how.error))])
            && (!how.WithError? ==> o'.sent == o.sent)
            && (o'.closing == if how.WithNil? && o.st.active then Some(Close(0, "")) else None)
  {
    HandlerIsIdle(w, s, x, k, how);
    EndIsStep(w, s, x, k, how);
    EndSends(s.Of(x).str.objs[k], how);
    hide Step, Enabled, Fine, Good, AllFollow, Reachable, NextMsg, Numbered, DoEndHandler;
    ReachableFine(w, s);
    FineAt(s, x);
    if how.WithError? { NextIs(s.Of(x), s.Of(PeerOf(x)), k, Close(2, how.error)); }
  }

  lemma EndSends(o: Obj, how: HandlerEnd)
    requires Idle(o)
    ensures var o' := DoEndHandler(o, how);
            && o'.sent == (if how.WithError? then o.sent + [NextMsg(o.st, Close(2, how.error))] else o.sent)
            && (o'.closing == if how.WithNil? && o.st.active then Some(Close(0, "")) else None)
  {
  }

  /** A stream is closed by its own side only by its user, its handler's error or cleanup, and only while
      it is open; every close error RecvMsg returned afterwards has no text. */
  lemma ClosedByOwnSide(w: World, s: Sys, act: Action, x: End, k: Key)
    requires Reachable(w, s) && Enabled(w, s, act) && k in s.Of(x).str.objs && k in Step(w, s, act).Of(x).str.objs
    ensures var o, o' := s.Of(x).str.objs[k], Step(w, s, act).Of(x).str.objs[k];
            && (o'.closedLocally && !o.closedLocally ==>
                  && act.x == x && o.st.active && !o'.st.active
                  && (|| act.op == OfStream(FinishClose(k)) || act.op == OfLink(Cleanup)
                      || (act.op.OfStream? && act.op.stream.HandlerEnds? && act.op.stream.key == k
                          && act.op.stream.how.WithError?)))
            && (forall i | 0 <= i < |o.outcomes| && o.outcomes[i].Closed? ::
                  !o.st.active && o.outcomes[i].error == o.st.remoteError
                  && (o.closedLocally ==> o.outcomes[i].error == ""))
  {
    GoodFrom(w, s, x);
    CloseErrors(s.Of(x), s.Of(PeerOf(x)), k);
    if act.x == x {
      hide Reachable, Step, Enabled, Guard, Effect;
      OwnStepCloses(w, s, act, k);
    } else {
      hide Reachable, Guard, Effect;
    }
  }

  lemma CloseErrors(e: Endpoint, p: Endpoint, k: Key)
    requires Good(e, p) && k in e.str.objs
    ensures ObjClose(e.str.objs[k])
  {
    assert ObjOk(e.str.objs[k], k, e.io.out, e.io.ctxDone);
    hide Local, Shared, ObjQueue, ObjGraceful, ObjNumbered, ObjSends, ObjClose;
  }

  lemma OwnStepCloses(w: World, s: Sys, act: Action, k: Key)
    requires Reachable(w, s) && Enabled(w, s, act) && k in s.Of(act.x).str.objs
    requires k in Step(w, s, act).Of(act.x).str.objs
    ensures var o, o' := s.Of(act.x).str.objs[k], Step(w, s, act).Of(act.x).str.objs[k];
            o'.closedLocally && !o.closedLocally ==>
              && o.st.active && !o'.st.active
              && (|| act.op == OfStream(FinishClose(k)) || act.op == OfLink(Cleanup)
                  || (act.op.OfStream? && act.op.stream.HandlerEnds? && act.op.stream.key == k
                      && act.op.stream.how.WithError?))
  {
    GoodFrom(w, s, act.x);
    hide Reachable, Good, Guard, Effect;
    StepCloses(w.Of(act.x), w.cap, s.Of(act.x), s.Of(PeerOf(act.x)), act.op, k);
  }

  lemma StepCloses(c: Config, cap: nat, e: Endpoint, p: Endpoint, op: Op, k: Key)
    requires Good(e, p) && Guard(c, cap, e, p.io, op) && k in e.str.objs && k in Effect(c, cap, e, p.io, op).str.objs
    ensures var o, o' := e.str.objs[k], Effect(c, cap, e, p.io, op).str.objs[k];
            o'.closedLocally && !o.closedLocally ==>
              && o.st.active && !o'.st.active
              && (|| op == OfStream(FinishClose(k)) || op == OfLink(Cleanup)
                  || (op.OfStream? && op.stream.HandlerEnds? && op.stream.key == k && op.stream.how.WithError?))
  {
    hide Local, Shared, StreamEffect, RequestOnTable, RequestEffect, CallEffect, LinkEffect;
    match op
    case OfCall(_) =>
    case OfRequest(o) =>
      if Registers(c, e.srv, o) { AcceptedStreamIsFresh(c, e, p, o.at); }
      RequestClosesNone(c, e, o, k);
    case OfStream(o) => StreamCloses(e.inv, e.str, e.io.ctxDone, o, k);
    case OfLink(o) => LinkCloses(cap, e, p.io, o, k);
  }

  lemma RequestClosesNone(c: Config, e: Endpoint, op: RequestOp, k: Key)
    requires k in e.str.objs && k in RequestOnTable(c, e.srv, e.str, op).objs
    requires Registers(c, e.srv, op) ==> Key(ServerSide, e.srv.reqs[op.at].req.input.streamId) !in e.str.objs
    ensures RequestOnTable(c, e.srv, e.str, op).objs[k].closedLocally == e.str.objs[k].closedLocally
  {
  }

  lemma StreamCloses(v: Invokes, t: Table, ctxDone: bool, op: StreamOp, k: Key)
    requires StreamGuard(v, t, ctxDone, op) && k in t.objs && k in StreamEffect(v, t, ctxDone, op).objs
    ensures var o, o' := t.objs[k], StreamEffect(v, t, ctxDone, op).objs[k];
            o'.closedLocally && !o.closedLocally ==>
              o.st.active && !o'.st.active
              && (op == FinishClose(k) || (op.HandlerEnds? && op.key == k && op.how.WithError?))
  {
  }

  lemma LinkCloses(cap: nat, e: Endpoint, peer: Io, op: LinkOp, k: Key)
    requires LinkGuard(cap, e.io, peer, op) && k in e.str.objs && k in LinkEffect(cap, e, peer, op).str.objs
    ensures var o, o' := e.str.objs[k], LinkEffect(cap, e, peer, op).str.objs[k];
            o'.closedLocally && !o.closedLocally ==> o.st.active && !o'.st.active && op.Cleanup?
  {
    hide Deliver, DoCancel;
  }
}
