/** The chain multiplexing router of package sqlchain: one MuxService per node
    owns a table from database id to the chain instance serving that database,
    and routes every chain-scoped RPC to the instance named by the request's
    DatabaseID, echoing the envelope and the id back on the response. */
module Mux {
  import opened Wrappers

  /** proto.DatabaseID, the key of the registry. */
  type DatabaseID = string

  /** proto.Envelope: per-call metadata that the router only copies. Its Go
      declaration is not part of this model; the fields carried here stand for
      whatever it holds, and nothing below depends on them. */
  datatype Envelope = Envelope(version: string, ttl: int, expire: int, nodeID: string)

  /** The seven RPC methods of MuxService, all routed the same way. */
  datatype Rpc =
    | AdviseNewBlock
    | AdviseBinLog
    | AdviseResponsedQuery
    | AdviseAckedQuery
    | FetchBlock
    | FetchAckedQuery
    | SignBilling

  /** The router's own sentinel, and any error a chain instance reports. */
  datatype Error = ErrUnknownMuxRequest | ChainError(reason: string)

  /** A `*ChainRPCService` pointer held by the registry. Only its identity
      matters to the router: the instance's own state is not part of this model. */
  datatype ChainRPCService = ChainRPCService(handle: nat)

  /** A `Mux...Req`: the envelope and the database id embedded beside the inner request. */
  datatype MuxRequest<Req> = MuxRequest(envelope: Envelope, databaseID: DatabaseID, inner: Req)

  /** The contents of a `Mux...Resp` at one instant. */
  datatype MuxResponseValue<Resp> = MuxResponseValue(envelope: Envelope, databaseID: DatabaseID, inner: Resp)

  /** What an instance's RPC method leaves in the inner response it was handed,
      and the error it returns (None is Go's nil). */
  datatype Reply<Resp> = Reply(inner: Resp, err: Option<Error>)

  /** The behaviour of the chain instances, left uninterpreted: any function of
      the instance, the method, the inner request and the inner response. The
      instance is never handed the envelope or the database id. */
  type Handler<-Req, !Resp> = (ChainRPCService, Rpc, Req, Resp) -> Reply<Resp>

  /** One call that the router forwarded to an instance. */
  datatype Forward = Forward(service: ChainRPCService, rpc: Rpc, databaseID: DatabaseID)

  /** A mutation of the registry: `register` or `unregister`. */
  datatype RegistryOp = Bind(id: DatabaseID, service: ChainRPCService) | Unbind(id: DatabaseID)

  type Registry = map<DatabaseID, ChainRPCService>

  /** The registry after one mutation: a bind overwrites any earlier binding of
      its id, an unbind of an absent id changes nothing, and no other id is touched. */
  function Apply(m: Registry, op: RegistryOp): (m': Registry)
    ensures op.Bind? ==> op.id in m' && m'[op.id] == op.service
    ensures op.Unbind? ==> op.id !in m'
    ensures op.Unbind? && op.id !in m ==> m' == m
    ensures forall k :: k != op.id ==> (k in m' <==> k in m)
    ensures forall k :: k != op.id && k in m ==> m'[k] == m[k]
  {
    match op
    case Bind(id, s) => m[id := s]
    case Unbind(id) => m - {id}
  }

  /** The registry built by a history of mutations, starting from the empty table. */
  function Replay(ops: seq<RegistryOp>): Registry
  {
    if ops == [] then map[] else Apply(Replay(ops[..|ops| - 1]), ops[|ops| - 1])
  }

  /** ops[i] is the last mutation in ops that names id. */
  ghost predicate LastOn(ops: seq<RegistryOp>, id: DatabaseID, i: int)
  {
    0 <= i < |ops| && ops[i].id == id && forall j :: i < j < |ops| ==> ops[j].id != id
  }

  /** An id that no mutation of the history names is unbound. */
  lemma {:induction false} ReplayUntouched(ops: seq<RegistryOp>, id: DatabaseID)
    requires forall i :: 0 <= i < |ops| ==> ops[i].id != id
    ensures id !in Replay(ops)
  {
    if ops != [] {
      ReplayUntouched(ops[..|ops| - 1], id);
    }
  }

  /** Last write wins: after any history, an id is bound exactly when the last
      mutation naming it was a register, and then to that register's instance. */
  lemma {:induction false} ReplayFollowsLastOp(ops: seq<RegistryOp>, id: DatabaseID, i: int)
    requires LastOn(ops, id, i)
    ensures id in Replay(ops) <==> ops[i].Bind?
    ensures ops[i].Bind? ==> Replay(ops)[id] == ops[i].service
  {
    if i < |ops| - 1 {
      var init := ops[..|ops| - 1];
      assert LastOn(init, id, i);
      ReplayFollowsLastOp(init, id, i);
    }
  }

  /** The outcome of routing one call: the response afterwards, the returned
      error, and the instance the call reached, if any. */
  datatype Routed<Resp> = Routed(resp: MuxResponseValue<Resp>, err: Option<Error>, reached: Option<ChainRPCService>)

  /** The routing rule shared by all seven RPC methods. On a miss the result is
      the sentinel error, the response is untouched and no instance is reached.
      On a hit the response carries the request's envelope and id, and the
      inner response and the error are exactly the instance's. */
  function Route<Req, Resp>(m: Registry, rpc: Rpc, req: MuxRequest<Req>, resp: MuxResponseValue<Resp>,
                            serve: Handler<Req, Resp>): (r: Routed<Resp>)
    ensures req.databaseID !in m ==>
      r.err == Some(ErrUnknownMuxRequest) && r.resp == resp && r.reached == None
    ensures req.databaseID in m ==>
      var reply := serve(m[req.databaseID], rpc, req.inner, resp.inner);
      && r.reached == Some(m[req.databaseID])
      && r.resp.envelope == req.envelope
      && r.resp.databaseID == req.databaseID
      && r.resp.inner == reply.inner
      && r.err == reply.err
  {
    if req.databaseID in m then
      var service := m[req.databaseID];
      var reply := serve(service, rpc, req.inner, resp.inner);
      Routed(MuxResponseValue(req.envelope, req.databaseID, reply.inner), reply.err, Some(service))
    else
      Routed(resp, Some(ErrUnknownMuxRequest), None)
  }

  /** A routing failure is never confused with an instance's rejection, as long
      as the instance reached does not itself answer with the router's sentinel. */
  lemma RoutingErrorMeansUnbound<Req, Resp>(m: Registry, rpc: Rpc, req: MuxRequest<Req>,
                                             resp: MuxResponseValue<Resp>, serve: Handler<Req, Resp>)
    requires req.databaseID in m ==>
      serve(m[req.databaseID], rpc, req.inner, resp.inner).err != Some(ErrUnknownMuxRequest)
    ensures Route(m, rpc, req, resp, serve).err == Some(ErrUnknownMuxRequest) <==> req.databaseID !in m
  {
  }

  /** After any history of register/unregister calls, a call reaches the
      instance of the last register of its id, and fails to route when the last
      mutation of that id was an unregister. */
  lemma RouteAfterHistory<Req, Resp>(ops: seq<RegistryOp>, i: int, rpc: Rpc, req: MuxRequest<Req>,
                                      resp: MuxResponseValue<Resp>, serve: Handler<Req, Resp>)
    requires LastOn(ops, req.databaseID, i)
    ensures Route(Replay(ops), rpc, req, resp, serve).reached ==
      (if ops[i].Bind? then Some(ops[i].service) else None)
    ensures ops[i].Unbind? ==> Route(Replay(ops), rpc, req, resp, serve).err == Some(ErrUnknownMuxRequest)
  {
    ReplayFollowsLastOp(ops, req.databaseID, i);
  }

  /** A call whose id was never registered fails to route and reaches no instance. */
  lemma RouteNeverRegistered<Req, Resp>(ops: seq<RegistryOp>, rpc: Rpc, req: MuxRequest<Req>,
                                         resp: MuxResponseValue<Resp>, serve: Handler<Req, Resp>)
    requires forall i :: 0 <= i < |ops| ==> ops[i].id != req.databaseID
    ensures Route(Replay(ops), rpc, req, resp, serve) == Routed(resp, Some(ErrUnknownMuxRequest), None)
  {
    ReplayUntouched(ops, req.databaseID);
  }

  /** A `Mux...Resp` that the router writes in place. */
  class MuxResponse<Resp> {
    var envelope: Envelope
    var databaseID: DatabaseID
    var inner: Resp

    constructor (envelope: Envelope, databaseID: DatabaseID, inner: Resp)
      ensures Value() == MuxResponseValue(envelope, databaseID, inner)
    {
      this.envelope := envelope;
      this.databaseID := databaseID;
      this.inner := inner;
    }

    function Value(): MuxResponseValue<Resp>
      reads this
    {
      MuxResponseValue(envelope, databaseID, inner)
    }
  }

  /** MuxService: the registry and the router. `History` records every
      register/unregister and `Forwarded` every call handed to an instance; both
      are ghost, kept only to state the contracts. */
  class MuxService {
    const serviceName: string
    var serviceMap: Registry
    ghost var History: seq<RegistryOp>
    ghost var Forwarded: seq<Forward>

    /** The table is always the one its mutation history builds. */
    ghost predicate Valid()
      reads this
    {
      serviceMap == Replay(History)
    }

    constructor (serviceName: string)
      ensures Valid()
      ensures this.serviceName == serviceName
      ensures serviceMap == map[] && History == [] && Forwarded == []
    {
      this.serviceName := serviceName;
      serviceMap := map[];
      History := [];
      Forwarded := [];
    }

    /** `register`: binds id to service, replacing any earlier binding. */
    method Register(id: DatabaseID, service: ChainRPCService)
      requires Valid()
      modifies this`serviceMap, this`History
      ensures Valid()
      ensures serviceMap == Apply(old(serviceMap), Bind(id, service))
      ensures History == old(History) + [Bind(id, service)]
    {
      serviceMap := serviceMap[id := service];
      History := History + [Bind(id, service)];
    }

    /** `unregister`: removes the binding of id, if any. */
    method Unregister(id: DatabaseID)
      requires Valid()
      modifies this`serviceMap, this`History
      ensures Valid()
      ensures serviceMap == Apply(old(serviceMap), Unbind(id))
      ensures History == old(History) + [Unbind(id)]
    {
      serviceMap := serviceMap - {id};
      History := History + [Unbind(id)];
    }

    /** Any of the seven RPC methods: look up the request's database id; on a
        miss return the sentinel and touch nothing; on a hit copy the envelope
        and the id onto the response, forward the inner request and response to
        the instance, and return its error unchanged. The registry is only read. */
    method Dispatch<Req, Resp>(rpc: Rpc, req: MuxRequest<Req>, resp: MuxResponse<Resp>,
                               serve: Handler<Req, Resp>) returns (err: Option<Error>)
      requires Valid()
      modifies resp, this`Forwarded
      ensures Valid() && serviceMap == old(serviceMap) && History == old(History)
      ensures var r := Route(old(serviceMap), rpc, req, old(resp.Value()), serve);
        && resp.Value() == r.resp
        && err == r.err
        && Forwarded == old(Forwarded) + (if r.reached.Some? then [Forward(r.reached.value, rpc, req.databaseID)] else [])
      ensures req.databaseID !in old(serviceMap) ==>
        err == Some(ErrUnknownMuxRequest) && unchanged(resp) && Forwarded == old(Forwarded)
    {
      if req.databaseID in serviceMap {
        var service := serviceMap[req.databaseID];
        resp.envelope := req.envelope;
        resp.databaseID := req.databaseID;
        var reply := serve(service, rpc, req.inner, resp.inner);
        resp.inner := reply.inner;
        Forwarded := Forwarded + [Forward(service, rpc, req.databaseID)];
        err := reply.err;
      } else {
        err := Some(ErrUnknownMuxRequest);
      }
    }
  }

  /** Register A then B under one id, and a call for that id reaches B; after
      unregistering it the call fails to route. */
  method LastWriteWinsScenario(a: ChainRPCService, b: ChainRPCService, req: MuxRequest<int>, serve: Handler<int, int>)
  {
    var mux := new MuxService("DBS");
    mux.Register(req.databaseID, a);
    mux.Register(req.databaseID, b);
    var resp := new MuxResponse(req.envelope, "", 0);
    var err := mux.Dispatch(FetchBlock, req, resp, serve);
    assert mux.Forwarded == [Forward(b, FetchBlock, req.databaseID)];
    assert err == serve(b, FetchBlock, req.inner, 0).err;
    mux.Unregister(req.databaseID);
    err := mux.Dispatch(AdviseNewBlock, req, resp, serve);
    assert err == Some(ErrUnknownMuxRequest);
    assert |mux.Forwarded| == 1;
  }
}
