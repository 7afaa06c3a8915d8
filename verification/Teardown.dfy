/** What cleanupStreams does to the streams of an endpoint, for good (xrpc/conn.go:520-537), and that
    nothing else unregisters a client stream. */
module Teardown {
  import opened Packets
  import opened Streams
  import opened Protocol
  import opened WireInvariants
  import opened StreamInvariants
  import opened Invariants
  import opened CallGuarantees
  import opened StreamGuarantees
  import opened Continuations

  predicate Inactive(t: Table, k: Key) {
    k in t.objs && !t.objs[k].st.active
  }

  lemma DeliverKeepsInactive(t: Table, m: StreamMsg, k: Key)
    requires Inactive(t, k)
    ensures Inactive(Dispatch(t, m), k)
  {
  }

  lemma RequestKeepsInactive(c: Config, e: Endpoint, op: RequestOp, k: Key)
    requires RequestGuard(c, e.srv, e.io.ctxDone, op) && Inactive(e.str, k)
    requires Registers(c, e.srv, op) ==> Key(ServerSide, e.srv.reqs[op.at].req.input.streamId) !in e.str.objs
    ensures Inactive(RequestOnTable(c, e.srv, e.str, op), k)
  {
  }

  lemma StreamKeepsInactive(v: Invokes, t: Table, ctxDone: bool, op: StreamOp, k: Key)
    requires StreamGuard(v, t, ctxDone, op) && Inactive(t, k)
    ensures Inactive(StreamEffect(v, t, ctxDone, op), k)
  {
  }

  lemma LinkKeepsInactive(cap: nat, e: Endpoint, peer: Io, op: LinkOp, k: Key)
    requires LinkGuard(cap, e.io, peer, op) && Inactive(e.str, k)
    ensures Inactive(LinkEffect(cap, e, peer, op).str, k)
  {
    if op.Read? && peer.out[e.io.read].StreamPacket? {
      DeliverKeepsInactive(e.str, peer.out[e.io.read].msg, k);
    }
  }

  /** A closed stream is not opened again: no request or response creates a stream that exists. */
  lemma EffectKeepsInactive(c: Config, cap: nat, e: Endpoint, p: Endpoint, op: Op, k: Key)
    requires Good(e, p) && Guard(c, cap, e, p.io, op) && Inactive(e.str, k)
    ensures Inactive(Effect(c, cap, e, p.io, op).str, k)
  {
    hide Good, Inactive, RequestOnTable, LinkEffect, StreamEffect;
    match op
    case OfCall(_) =>
    case OfRequest(o) =>
      if Registers(c, e.srv, o) { AcceptedStreamIsFresh(c, e, p, o.at); }
      RequestKeepsInactive(c, e, o, k);
    case OfStream(o) => StreamKeepsInactive(e.inv, e.str, e.io.ctxDone, o, k);
    case OfLink(o) => LinkKeepsInactive(cap, e, p.io, o, k);
  }

  lemma {:induction false} RunKeepsInactive(w: World, s: Sys, acts: seq<Action>, x: End, k: Key)
    requires Inv(s) && Run(w, s, acts).Some? && Inactive(s.Of(x).str, k)
    ensures Inactive(Run(w, s, acts).value.Of(x).str, k)
    decreases |acts|
  {
    hide Inactive, Local, Shared;
    if acts != [] {
      var act := acts[0];
      if act.x == x {
        EffectKeepsInactive(w.Of(x), w.cap, s.Of(x), s.Of(PeerOf(x)), act.op, k);
      }
      StepKeepsInv(w, s, act);
      RunKeepsInactive(w, Step(w, s, act), acts[1..], x, k);
    }
  }

  lemma CleanupCloses(cap: nat, e: Endpoint, peer: Io, k: Key)
    requires LinkGuard(cap, e.io, peer, Cleanup) && k in e.str.objs
    ensures var t := LinkEffect(cap, e, peer, Cleanup).str;
            && t.live == {} && k in t.objs
            && (t.objs[k].st.active <==> e.str.objs[k].st.active && k !in e.str.live)
            && (k in e.str.live ==> t.objs[k].st == CloseWith(e.str.objs[k].st, "") && Inactive(t, k))
  {
  }

  lemma ClosedCanReceive(t: Table, k: Key)
    requires Inactive(t, k)
    ensures k in t.objs && CanReceive(t.objs[k].st)
  {
  }

  /** Cleanup empties the table and closes exactly the streams in it: a stream is still open
      afterwards if and only if its handler had ended, and so removed it, while it was open.
      A closed one stays closed in every continuation, and its receivers are released: RecvMsg
      returns at once, first what is queued and then the close error. */
  lemma CleanupClosesRegisteredStreams(w: World, s: Sys, x: End, acts: seq<Action>, k: Key)
    requires Reachable(w, s) && Enabled(w, s, Action(x, OfLink(Cleanup))) && k in s.Of(x).str.objs
    requires Run(w, Step(w, s, Action(x, OfLink(Cleanup))), acts).Some?
    ensures var t := Step(w, s, Action(x, OfLink(Cleanup))).Of(x).str;
            && t.live == {} && k in t.objs
            && (t.objs[k].st.active <==> s.Of(x).str.objs[k].st.active && k !in s.Of(x).str.live)
            && (k in s.Of(x).str.live ==>
                  t.objs[k].st == CloseWith(s.Of(x).str.objs[k].st, ""))
    ensures var t := Run(w, Step(w, s, Action(x, OfLink(Cleanup))), acts).value.Of(x).str;
            k in s.Of(x).str.live ==> Inactive(t, k) && CanReceive(t.objs[k].st)
  {
    var act := Action(x, OfLink(Cleanup));
    CleanupCloses(w.cap, s.Of(x), s.Of(PeerOf(x)).io, k);
    hide Inactive, LinkEffect;
    if k in s.Of(x).str.live {
      ReachableInv(w, s);
      StepKeepsInv(w, s, act);
      hide Inv, Reachable, Run;
      RunKeepsInactive(w, Step(w, s, act), acts, x, k);
      ClosedCanReceive(Run(w, Step(w, s, act), acts).value.Of(x).str, k);
    }
  }

  // ---------------------------------------------------------------- client streams before cleanup

  /** A client stream has a user for good, and until cleanup it is registered. */
  predicate ClientStays(cleaned: bool, t: Table, k: Key)
    requires k in t.objs
  {
    k.side.ClientSide? ==> t.objs[k].owner.Serving? && (cleaned || k in t.live)
  }

  ghost predicate ClientsStay(e: Endpoint) {
    forall k | k in e.str.objs :: ClientStays(e.io.cleaned, e.str, k)
  }

  lemma RequestKeepsClientStays(c: Config, e: Endpoint, op: RequestOp, k: Key)
    requires k in RequestOnTable(c, e.srv, e.str, op).objs
    requires k in e.str.objs ==> ClientStays(e.io.cleaned, e.str, k)
    ensures ClientStays(e.io.cleaned, RequestOnTable(c, e.srv, e.str, op), k)
  {
  }

  lemma StreamKeepsClientStays(v: Invokes, t: Table, ctxDone: bool, cleaned: bool, op: StreamOp, k: Key)
    requires StreamGuard(v, t, ctxDone, op) && k in StreamEffect(v, t, ctxDone, op).objs
    requires k in t.objs ==> ClientStays(cleaned, t, k)
    ensures ClientStays(cleaned, StreamEffect(v, t, ctxDone, op), k)
  {
  }

  lemma LinkKeepsClientStays(cap: nat, e: Endpoint, peer: Io, op: LinkOp, k: Key)
    requires LinkGuard(cap, e.io, peer, op) && k in LinkEffect(cap, e, peer, op).str.objs
    requires k in e.str.objs ==> ClientStays(e.io.cleaned, e.str, k)
    ensures ClientStays(LinkEffect(cap, e, peer, op).io.cleaned, LinkEffect(cap, e, peer, op).str, k)
  {
    hide Deliver, DoCancel;
  }

  lemma StepKeepsClientsStay(c: Config, cap: nat, e: Endpoint, peer: Io, op: Op)
    requires Guard(c, cap, e, peer, op) && ClientsStay(e)
    ensures ClientsStay(Effect(c, cap, e, peer, op))
  {
    hide StreamEffect, RequestEffect, CallEffect, LinkEffect, LinkGuard, RequestOnTable, ClientStays, Emits;
    var e' := Effect(c, cap, e, peer, op);
    forall k | k in e'.str.objs ensures ClientStays(e'.io.cleaned, e'.str, k) {
      match op
      case OfCall(_) =>
      case OfRequest(o) => RequestKeepsClientStays(c, e, o, k);
      case OfStream(o) => StreamKeepsClientStays(e.inv, e.str, e.io.ctxDone, e.io.cleaned, o, k);
      case OfLink(o) => LinkKeepsClientStays(cap, e, peer, o, k);
    }
  }

  lemma {:induction false} RunKeepsClientsStay(w: World, s: Sys, acts: seq<Action>, x: End)
    requires ClientsStay(s.Of(x)) && Run(w, s, acts).Some?
    ensures ClientsStay(Run(w, s, acts).value.Of(x))
    decreases |acts|
  {
    hide Guard, Effect, ClientsStay;
    if acts != [] {
      var act := acts[0];
      if act.x == x { StepKeepsClientsStay(w.Of(x), w.cap, s.Of(x), s.Of(PeerOf(x)).io, act.op); }
      RunKeepsClientsStay(w, Step(w, s, act), acts[1..], x);
    }
  }

  /** What the reader has taken for a registered client stream since its registration is received, and
      all of its data was returned by RecvMsg or is queued. */
  lemma TakenIsReceived(e: Endpoint, p: Endpoint, k: Key)
    requires Good(e, p) && k in e.str.objs && k in e.str.live
    ensures e.io.read <= |p.io.out|
    ensures var o, taken := e.str.objs[k], SentBy(p.io.out[..e.io.read], Mirror(k));
            && o.base <= |taken| && o.received == taken[o.base..]
            && DataOf(o.received) == GotsOf(o.outcomes) + DataOf(o.st.queue)
  {
    StreamGuarantees.Returned(e, k);
    assert RecvFits(e.str, p.io.out[..e.io.read], k);
    hide Local, SentBy, DataOf, GotsOf;
  }

  /** Only cleanup unregisters a client stream: in every continuation up to cleanup it stays in
      `clientStreams`, closed or not, and whatever the reader takes for it is received: all data since
      the registration that RecvMsg has not returned is kept in its queue. */
  lemma ClientEntriesStay(w: World, s: Sys, x: End, k: Key, acts: seq<Action>)
    requires Reachable(w, s) && k.side.ClientSide? && k in s.Of(x).str.objs
    requires Run(w, s, acts).Some? && !Run(w, s, acts).value.Of(x).io.cleaned
    ensures var e, p := Run(w, s, acts).value.Of(x), Run(w, s, acts).value.Of(PeerOf(x));
            && k in e.str.live && k in e.str.objs && e.str.objs[k].base == s.Of(x).str.objs[k].base
            && e.io.read <= |p.io.out|
            && var o, taken := e.str.objs[k], SentBy(p.io.out[..e.io.read], Mirror(k));
               && o.base <= |taken| && o.received == taken[o.base..]
               && DataOf(o.received) == GotsOf(o.outcomes) + DataOf(o.st.queue)
  {
    var before: seq<Action> :| Run(w, INIT, before) == Some(s);
    RunKeepsClientsStay(w, INIT, before, x);
    ReachableFine(w, s);
    hide Run, Fine, Good, Reachable, SentBy, DataOf, GotsOf;
    RunKeepsClientsStay(w, s, acts, x);
    RunKeepsBase(w, s, acts, x, k);
    var t := Run(w, s, acts).value;
    FineAt(t, x);
    assert ClientStays(false, t.Of(x).str, k);
    TakenIsReceived(t.Of(x), t.Of(PeerOf(x)), k);
  }
}
