/** `RpcConn` as the object it is: the fields that goroutines share, and each critical section on
    them (xrpc/conn.go:56-93, 316-328, 371-413, 455-537, 561-610 and 697-703). The lemmas at the end
    say that the connection machine of module Protocol takes the same steps. */
module RpcConns {
  import opened Packets
  import opened Streams
  import opened Protocol
  import opened CallInvariants
  import opened StreamInvariants
  import opened RpcStreams

  /** The channel an Invoke waits on; closing it twice or sending on it once closed panics. */
  class WaitChan {
    var closed: bool

    constructor ()
      ensures !closed
    {
      closed := false;
    }

    method Close()
      requires !closed
      modifies this
      ensures closed
    {
      closed := true;
    }
  }

  /** One of the two stream tables, and the states of its streams. */
  type StreamTable = map<nat, RpcStream>
  type Views = map<nat, Stream>

  ghost function Members(table: StreamTable): set<RpcStream> {
    table.Values
  }

  ghost function ViewOf(table: StreamTable): Views
    reads Members(table)
  {
    map id | id in table :: table[id].View()
  }

  /** Each stream is registered under its own number, in the table of its side. */
  ghost predicate TableValid(table: StreamTable, side: Side)
    reads Members(table)
  {
    forall id | id in table :: table[id].Valid() && table[id].id == id && table[id].side == side
  }

  /** A message goes to the registered stream it is for, or nowhere. */
  function DeliverTo(vs: Views, m: StreamMsg): Views {
    if m.streamId in vs then vs[m.streamId := Deliver(vs[m.streamId], m)] else vs
  }

  /** Every stream closed locally, and every one but those still to come. */
  function AllClosed(vs: Views): Views {
    ClosedBut(vs, {})
  }

  function ClosedBut(vs: Views, left: set<nat>): Views {
    map id | id in vs :: if id in left then vs[id] else CloseWith(vs[id], "")
  }

  lemma IsMember(table: StreamTable, id: nat)
    requires id in table
    ensures table[id] in Members(table)
  {
  }

  /** The lookup and the dispatch in one table; the other table is not touched. */
  method DispatchIn(table: StreamTable, side: Side, msg: StreamMsg, ghost other: StreamTable) returns (known: bool)
    requires TableValid(table, side) && TableValid(other, Opposite(side))
    modifies Members(table)
    ensures TableValid(table, side) && known == (msg.streamId in table)
    ensures ViewOf(table) == DeliverTo(old(ViewOf(table)), msg)
    ensures TableValid(other, Opposite(side)) && ViewOf(other) == old(ViewOf(other))
  {
    hide RpcStream.Valid, Deliver;
    known := msg.streamId in table;
    if known { table[msg.streamId].Dispatch(msg); }
  }

  /** `stream.close()` on one stream of a table; the other table is not touched. */
  method CloseIn(ghost table: StreamTable, ghost side: Side, ghost id: nat, stream: RpcStream, ghost other: StreamTable)
    requires TableValid(table, side) && TableValid(other, Opposite(side)) && id in table && table[id] == stream
    modifies stream
    ensures TableValid(table, side)
    ensures TableValid(other, Opposite(side)) && ViewOf(other) == old(ViewOf(other))
    ensures ViewOf(table) == old(ViewOf(table))[id := CloseWith(old(table[id].View()), "")]
  {
    hide RpcStream.Valid, CloseWith;
    stream.CloseWithRemoteError("");
  }

  lemma ClosedNext(table: StreamTable, vs: Views, left: set<nat>, id: nat)
    requires id in left && id in table && ViewOf(table) == ClosedBut(vs, left)
    ensures ClosedBut(vs, left)[id := CloseWith(table[id].View(), "")] == ClosedBut(vs, left - {id})
  {
    assert ViewOf(table)[id] == table[id].View();
  }

  lemma NoneClosed(table: StreamTable)
    ensures ViewOf(table) == ClosedBut(ViewOf(table), table.Keys)
  {
  }

  /** The loop of cleanupStreams over one table, which is emptied as it goes. */
  method CloseTable(table: StreamTable, ghost side: Side, ghost other: StreamTable)
    requires TableValid(table, side) && TableValid(other, Opposite(side))
    modifies Members(table)
    ensures TableValid(table, side) && ViewOf(table) == AllClosed(old(ViewOf(table)))
    ensures TableValid(other, Opposite(side)) && ViewOf(other) == old(ViewOf(other))
  {
    hide Members, RpcStream.Valid, CloseWith, ViewOf, TableValid, ClosedBut;
    var left := table;
    NoneClosed(table);
    while left != map[]
      invariant forall id | id in left :: id in table && left[id] == table[id]
      invariant TableValid(table, side) && ViewOf(table) == ClosedBut(old(ViewOf(table)), left.Keys)
      invariant TableValid(other, Opposite(side)) && ViewOf(other) == old(ViewOf(other))
      decreases |left|
    {
      var id :| id in left;
      IsMember(table, id);
      ClosedNext(table, old(ViewOf(table)), left.Keys, id);
      CloseIn(table, side, id, left[id], other);
      left := left - {id};
    }
  }

  /** The call has made its channel. */
  predicate OpenChan(v: Invokes, id: nat) {
    id in v.chans && v.chans[id].ChanOpen?
  }

  /** The request is for a unary method that is served. */
  predicate StartsUnary(c: Config, r: Requests, at: nat) {
    at in r.reqs && r.reqs[at].req.service != "" && ResolvesUnary(c, r.reqs[at].req)
  }

  class RpcConn {
    var invokeId: nat
    var invokes: map<nat, WaitChan>
    var cancels: map<nat, CancelEntry>
    var clientStreams: StreamTable
    var serverStreams: StreamTable

    ghost predicate ChansOk()
      reads this, invokes.Values
    {
      && (forall id | id in invokes :: !invokes[id].closed)
      && (forall i, j | i in invokes && j in invokes && i != j :: invokes[i] != invokes[j])
    }

    /** No stored entry is marked as cancelled. */
    ghost predicate NoneMarked()
      reads this
    {
      forall id | id in cancels :: !cancels[id].cancelled
    }

    ghost predicate Valid()
      reads this, invokes.Values, Members(clientStreams), Members(serverStreams)
    {
      && invokeId < ID_SPACE && ChansOk() && NoneMarked()
      && TableValid(clientStreams, ClientSide) && TableValid(serverStreams, ServerSide)
    }

    /** The machine's calls `v` show this object: the same ids, the same registered calls, and the
        same channels closed. */
    ghost predicate ShowsCalls(v: Invokes)
      reads this, invokes.Values
    {
      && v.lastId == invokeId && v.invokes == invokes.Keys
      && (forall id | id in invokes :: id in v.chans && (v.chans[id].ChanClosed? <==> invokes[id].closed))
    }

    /** The machine's requests `r` have this object's cancel entries. */
    ghost predicate ShowsCancels(r: Requests)
      reads this
    {
      r.cancels == cancels
    }

    constructor ()
      ensures ShowsCalls(IDLE.inv) && ShowsCancels(IDLE.srv)
      ensures Valid() && clientStreams == map[] && serverStreams == map[]
      ensures invokes == map[] && cancels == map[] && invokeId == 0
    {
      invokeId, invokes, cancels, clientStreams, serverStreams := 0, map[], map[], map[], map[];
    }

    // -------------------------------------------------------------- calls

    /** getNextInvokeId */
    method GetNextInvokeId() returns (id: nat)
      requires Valid()
      modifies this`invokeId
      ensures Valid() && id == invokeId && id < ID_SPACE
      ensures old(invokeId) < 0xffff_ffff_ffff_ffff ==> id == old(invokeId) + 1
      ensures old(invokeId) == 0xffff_ffff_ffff_ffff ==> id == 0
      ensures forall v: Invokes, service, methodName, any, notify | old(ShowsCalls(v)) && v.lastId + 1 < ID_SPACE ::
                ShowsCalls(DoStartCall(v, service, methodName, any, notify))
    {
      invokeId := (invokeId + 1) % ID_SPACE;
      id := invokeId;
    }

    /** Invoke makes its channel and registers it: the first lock granted to a call. */
    method RegisterInvoke(id: nat) returns (ch: WaitChan)
      requires Valid()
      modifies this`invokes
      ensures Valid() && fresh(ch) && invokes == old(invokes)[id := ch]
      ensures forall v: Invokes | old(ShowsCalls(v)) && CanGrant(v, id) && v.calls[id].pc.RegLock? && OpenChan(v, id) ::
                ShowsCalls(DoGrant(v, id))
    {
      ch := new WaitChan();
      invokes := invokes[id := ch];
    }

    /** The deferred function of Invoke. The channel is still open, so closing it cannot panic;
        and what stays registered is open, so processResponse never sends on a closed channel. In
        the machine this is the last lock granted to a call. */
    method UnregisterInvoke(id: nat, ch: WaitChan)
      requires Valid() && id in invokes && invokes[id] == ch
      modifies this`invokes, ch
      ensures Valid() && ch.closed && invokes == old(invokes) - {id}
      ensures forall v: Invokes | old(ShowsCalls(v)) && CanGrant(v, id) && v.calls[id].pc.DelLock? ::
                ShowsCalls(DoGrant(v, id)) && id in DoGrant(v, id).chans && DoGrant(v, id).chans[id].ChanClosed?
    {
      invokes := invokes - {id};
      ch.Close();
    }

    /** The lookup of processResponse. */
    method FindInvoke(id: nat) returns (ch: Option<WaitChan>)
      requires Valid()
      ensures ch.Some? <==> id in invokes
      ensures ch.Some? ==> ch.value == invokes[id] && !ch.value.closed
      ensures forall v: Invokes, at | ShowsCalls(v) && CanLockResponse(v, at) && v.resps[at].id == id ::
                DoLockResponse(v, at).resps[at].pc.Sending? <==> ch.Some?
    {
      ch := if id in invokes then Some(invokes[id]) else None;
    }

    // -------------------------------------------------------------- cancelling

    method RegisterCancel(id: nat, target: nat)
      requires Valid()
      modifies this`cancels
      ensures Valid() && cancels == old(cancels)[id := CancelEntry(target, false)]
      ensures forall c: Config, r: Requests |
                old(ShowsCancels(r)) && HasReq(r, target, Started) && r.reqs[target].req.id == id
                && StartsUnary(c, r, target) ::
                ShowsCancels(DoAccept(c, r, target))
    {
      cancels := cancels[id := CancelEntry(target, false)];
    }

    /** The reader on a CtxCancel: it marks its copy of the entry and cancels its target. The map
        keeps the unmarked entry, as there is nothing this method may modify. */
    method CtxCancelled(id: nat) returns (target: Option<nat>)
      requires Valid()
      ensures target == if id in cancels then Some(cancels[id].target) else None
      ensures forall r: Requests, cause | ShowsCancels(r) ::
                && ShowsCancels(DoCancel(r, id, cause))
                && forall at | at in r.reqs && at in DoCancel(r, id, cause).reqs
                   && DoCancel(r, id, cause).reqs[at] != r.reqs[at] ::
                     target == Some(at)
    {
      target := None;
      if id in cancels {
        var entry := cancels[id];
        entry := entry.(cancelled := true);
        target := Some(entry.target);
      }
    }

    /** The test before responding; a missing entry reads as the zero value. It never holds back
        a response. */
    method IsMarkedCancelled(id: nat) returns (marked: bool)
      requires Valid()
      ensures !marked
      ensures forall r: Requests | ShowsCancels(r) :: marked == MarkedCancelled(r, id)
    {
      marked := id in cancels && cancels[id].cancelled;
    }

    method RemoveCancel(id: nat)
      requires Valid()
      modifies this`cancels
      ensures Valid() && cancels == old(cancels) - {id}
      ensures forall r: Requests, at | old(ShowsCancels(r)) && HasReq(r, at, Removing) && r.reqs[at].req.id == id ::
                ShowsCancels(DoRemoveCancel(r, at))
    {
      cancels := cancels - {id};
    }

    // -------------------------------------------------------------- streams

    /** The registration in processRequest. */
    method RegisterServerStream(id: nat) returns (s: RpcStream)
      requires Valid()
      modifies this`serverStreams
      ensures Valid() && fresh(s) && serverStreams == old(serverStreams)[id := s]
      ensures s.View() == NewStream(id, ServerSide)
    {
      s := new RpcStream(id, ServerSide);
      serverStreams := serverStreams[id := s];
    }

    /** The registration in NewStream. */
    method RegisterClientStream(id: nat) returns (s: RpcStream)
      requires Valid()
      modifies this`clientStreams
      ensures Valid() && fresh(s) && clientStreams == old(clientStreams)[id := s]
      ensures s.View() == NewStream(id, ClientSide)
    {
      s := new RpcStream(id, ClientSide);
      clientStreams := clientStreams[id := s];
    }

    /** The deferred function of handleIncomingStream. */
    method DeleteServerStream(id: nat)
      requires Valid()
      modifies this`serverStreams
      ensures Valid() && serverStreams == old(serverStreams) - {id}
    {
      serverStreams := serverStreams - {id};
    }

    /** processStreamMsg: a message from the peer's server half is for our client half, and the
        other half of the same number is not touched. */
    method ProcessStreamMsg(msg: StreamMsg) returns (known: bool)
      requires Valid()
      modifies Members(clientStreams), Members(serverStreams)
      ensures Valid()
      ensures msg.sender == ServerSide ==>
                && known == (msg.streamId in clientStreams)
                && ViewOf(clientStreams) == DeliverTo(old(ViewOf(clientStreams)), msg)
                && ViewOf(serverStreams) == old(ViewOf(serverStreams))
      ensures msg.sender == ClientSide ==>
                && known == (msg.streamId in serverStreams)
                && ViewOf(serverStreams) == DeliverTo(old(ViewOf(serverStreams)), msg)
                && ViewOf(clientStreams) == old(ViewOf(clientStreams))
    {
      hide Members, ViewOf, TableValid, DeliverTo, RpcStream.Valid, Deliver, ChansOk, NoneMarked;
      if msg.sender == ServerSide {
        known := DispatchIn(clientStreams, ClientSide, msg, serverStreams);
      } else {
        known := DispatchIn(serverStreams, ServerSide, msg, clientStreams);
      }
    }

    /** cleanupStreams: every registered stream is closed and no stream stays registered. */
    method CleanupStreams()
      requires Valid()
      modifies this`clientStreams, this`serverStreams, Members(clientStreams), Members(serverStreams)
      ensures Valid() && clientStreams == map[] && serverStreams == map[]
      ensures ViewOf(old(serverStreams)) == AllClosed(old(ViewOf(serverStreams)))
      ensures ViewOf(old(clientStreams)) == AllClosed(old(ViewOf(clientStreams)))
    {
      hide RpcStream.Valid, ViewOf, AllClosed;
      CloseTable(serverStreams, ServerSide, clientStreams);
      CloseTable(clientStreams, ClientSide, serverStreams);
      serverStreams, clientStreams := map[], map[];
    }
  }

  // ---------------------------------------------------------------- the machine takes the same steps

  /** The machine's table shows `vs` as the registered streams of a side. */
  ghost predicate Shows(t: Table, side: Side, vs: Views) {
    forall id: nat ::
      && (id in vs <==> Key(side, id) in t.live)
      && (id in vs ==> Key(side, id) in t.objs && t.objs[Key(side, id)].st == vs[id])
  }

  /** Both tables of an endpoint. */
  ghost predicate ShowsBoth(t: Table, clients: Views, servers: Views) {
    Shows(t, ClientSide, clients) && Shows(t, ServerSide, servers)
  }

  /** The reader's dispatch is ProcessStreamMsg. */
  lemma DispatchMatches(t: Table, clients: Views, servers: Views, m: StreamMsg)
    requires ShowsBoth(t, clients, servers)
    ensures ShowsBoth(Dispatch(t, m),
                      if m.sender == ServerSide then DeliverTo(clients, m) else clients,
                      if m.sender == ClientSide then DeliverTo(servers, m) else servers)
    ensures Dispatch(t, m).drops == t.drops <==> m.streamId in (if m.sender == ServerSide then clients else servers)
  {
    hide Deliver;
    assert TargetKey(m) == Key(Opposite(m.sender), m.streamId);
    assert |t.drops + [StreamPacket(m)]| == |t.drops| + 1;
  }

  /** NewStream's registration, and the one in processRequest. */
  lemma RegistrationMatches(c: Config, t: Table, clients: Views, servers: Views, sid: nat, rid: nat, q: RequestMsg,
                            at: nat)
    requires ShowsBoth(t, clients, servers)
    ensures ShowsBoth(DoRegister(t, sid, rid), clients[sid := NewStream(sid, ClientSide)], servers)
    ensures q.service == "" && ResolvesStream(c, q) ==>
              ShowsBoth(AcceptStream(c, t, q, at), clients,
                        servers[q.input.streamId := NewStream(q.input.streamId, ServerSide)])
  {
  }

  /** The end of a handler, and cleanupStreams. */
  lemma RemovalMatches(t: Table, clients: Views, servers: Views, id: nat)
    requires ShowsBoth(t, clients, servers)
    ensures Key(ServerSide, id) in t.objs ==>
              ShowsBoth(SetObj(t, Key(ServerSide, id),
                               t.objs[Key(ServerSide, id)].(owner := Gone)).(live := t.live - {Key(ServerSide, id)}),
                        clients, servers - {id})
    ensures ShowsBoth(DoCleanup(t), map[], map[])
    ensures forall sid | sid in clients ::
              Key(ClientSide, sid) in t.objs && DoCleanup(t).objs[Key(ClientSide, sid)].st == AllClosed(clients)[sid]
    ensures forall sid | sid in servers ::
              Key(ServerSide, sid) in t.objs && DoCleanup(t).objs[Key(ServerSide, sid)].st == AllClosed(servers)[sid]
  {
  }

  /** Whatever else the machine does to calls, it leaves `invokes` and the registered channels as
      the object has them: ids are taken by GetNextInvokeId, and the map is written by
      RegisterInvoke and UnregisterInvoke alone. */
  lemma CallsMatch(conn: RpcConn, v: Invokes, ctxDone: bool, pos: nat, op: CallOp)
    requires CallsOk(v) && conn.ShowsCalls(v) && CallGuard(v, ctxDone, op) && !op.Grant? && !TakesId(op)
    ensures conn.ShowsCalls(CallEffect(v, ctxDone, pos, op))
  {
    if op.Announce? { assert CallFits(v, op.id); }
    hide OpensOk, KnownCalls, ReadersOk, EachCallFits;
  }

  /** And `cancels` is written by RegisterCancel and RemoveCancel alone, whatever the endpoint
      does; reading a cancel packet leaves it as CtxCancelled does. */
  lemma CancelsMatch(conn: RpcConn, c: Config, cap: nat, e: Endpoint, peer: Io, op: Op)
    requires conn.ShowsCancels(e.srv) && Guard(c, cap, e, peer, op)
    requires op.OfRequest? && op.request.Accept? ==> !StartsUnary(c, e.srv, op.request.at)
    requires op.OfRequest? ==> !op.request.RemoveCancel?
    ensures conn.ShowsCancels(Effect(c, cap, e, peer, op).srv)
  {
    hide Dispatch, StreamEffect, CallEffect, RequestOnTable;
    if op.OfRequest? { OtherRequestsKeepCancels(conn, c, e.srv, e.io.ctxDone, |e.io.out|, op.request); }
  }

  lemma OtherRequestsKeepCancels(conn: RpcConn, c: Config, r: Requests, ctxDone: bool, pos: nat, op: RequestOp)
    requires conn.ShowsCancels(r) && RequestGuard(c, r, ctxDone, op) && !op.RemoveCancel?
    requires op.Accept? ==> !StartsUnary(c, r, op.at)
    ensures conn.ShowsCancels(RequestEffect(c, r, ctxDone, pos, op))
  {
  }
}
