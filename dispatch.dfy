/**
 * The handlers `Provision` binds and the connection dispatch `Handle`
 * performs, with the calls it makes to the metrics sink and the handlers
 * recorded as events.
 */
module ConnectionDispatch {
  import opened Wrappers
  import opened Collaborators
  import opened KeyRegistry

  /**
   * The connection type the Outline app attaches to a connection.  Its Go
   * declaration is not part of this model; any value other than the two
   * named ones is `OtherConnectionType`.
   */
  datatype ConnectionType = StreamConnectionType | PacketConnectionType | OtherConnectionType

  /** The value stored under the connection-type variable: of type `ConnectionType`, or of some other type. */
  datatype ConnVar = ConnTypeValue(connType: ConnectionType) | ForeignValue

  /**
   * An inbound layer-4 connection: an identity standing for its context and
   * socket, the connection-type variable if one is set, and whether the
   * socket is a `transport.StreamConn`.
   */
  datatype Connection = Connection(id: nat, typeVar: Option<ConnVar>, isStreamConn: bool)

  /** `outline.NewCipherList()` after `Update` with the built entries. */
  datatype CipherList = CipherList(entries: seq<CipherEntry>)

  /** The options `NewShadowsocksHandlers` receives; both handlers are closed over them. */
  datatype HandlerOptions = HandlerOptions(
    logger: Logger,
    ciphers: CipherList,
    metrics: Option<ServiceMetrics>,
    replayCache: Option<ReplayCache>)

  datatype StreamHandler = StreamHandler(options: HandlerOptions)
  datatype AssociationHandler = AssociationHandler(options: HandlerOptions)

  /** The stream and association handlers `outline.NewShadowsocksHandlers` returns. */
  function NewShadowsocksHandlers(options: HandlerOptions): (StreamHandler, AssociationHandler)
  {
    (StreamHandler(options), AssociationHandler(options))
  }

  /** The per-connection tracker returned by `AddOpenTCPConnection` or `AddOpenUDPAssociation`. */
  datatype ConnMetrics =
    | TCPConnMetrics(sink: ServiceMetrics, connId: nat)
    | UDPAssocMetrics(sink: ServiceMetrics, connId: nat)

  /** A call this component makes to a collaborator. */
  datatype Event =
    | NewEncryptionKey(cipher: string, secret: string)
    | AddOpenTCPConnection(sink: ServiceMetrics, connId: nat)
    | AddOpenUDPAssociation(sink: ServiceMetrics, connId: nat)
    | HandleStream(stream: StreamHandler, connId: nat, tracker: ConnMetrics)
    | HandleAssociation(association: AssociationHandler, connId: nat, tracker: ConnMetrics)

  predicate IsHandlerCall(e: Event)
  {
    e.HandleStream? || e.HandleAssociation?
  }

  predicate IsMetricsOpen(e: Event)
  {
    e.AddOpenTCPConnection? || e.AddOpenUDPAssociation?
  }

  /** `open` is the metrics call whose tracker, for the same connection, `call` receives. */
  predicate OpensFor(open: Event, call: Event)
  {
    match call
    case HandleStream(_, id, t) => open == AddOpenTCPConnection(t.sink, id) && t == TCPConnMetrics(t.sink, id)
    case HandleAssociation(_, id, t) => open == AddOpenUDPAssociation(t.sink, id) && t == UDPAssocMetrics(t.sink, id)
    case _ => false
  }

  /** Every handler call is immediately preceded by the metrics call that opened its tracker. */
  predicate MetricsOpenedFirst(es: seq<Event>)
  {
    forall k :: 0 <= k < |es| && IsHandlerCall(es[k]) ==> 0 < k && OpensFor(es[k - 1], es[k])
  }

  /** The number of handler calls in `es`. */
  function HandlerCalls(es: seq<Event>): nat
  {
    if es == [] then 0 else (if IsHandlerCall(es[0]) then 1 else 0) + HandlerCalls(es[1..])
  }

  /** The fields `Handle` reads: the bound handlers and the metrics sink. */
  datatype Bindings = Bindings(
    stream: Option<StreamHandler>,
    association: Option<AssociationHandler>,
    metrics: Option<ServiceMetrics>)

  /** `cx.GetVar(outlineConnectionTypeCtxKey).(ConnectionType)`: `None` when unset or of another type. */
  function ConnTypeOf(cx: Connection): Option<ConnectionType>
  {
    match cx.typeVar
    case Some(ConnTypeValue(t)) => Some(t)
    case _ => None
  }

  /**
   * The calls `Handle` makes cannot fail in Go: the branch taken finds its
   * handler and the metrics sink set, and a stream connection's socket is a
   * `transport.StreamConn`.
   */
  predicate CanDispatch(cx: Connection, b: Bindings)
  {
    && (ConnTypeOf(cx) == Some(StreamConnectionType) ==> b.stream.Some? && b.metrics.Some? && cx.isStreamConn)
    && (ConnTypeOf(cx) == Some(PacketConnectionType) ==> b.association.Some? && b.metrics.Some?)
  }

  /** The error `Handle` returns for a connection that is untagged or whose tag is not a `ConnectionType`. */
  datatype DispatchError = UnknownConnectionType

  /** What one `Handle` call returns and the calls it makes, in order. */
  datatype Dispatched = Dispatched(err: Option<DispatchError>, events: seq<Event>)

  /**
   * What `Handle` does with `cx`: an untagged or ill-typed tag is an error and
   * nothing is called; a stream or packet connection opens its metrics
   * tracker and is then handed, with it, to exactly one handler of its kind;
   * any other tag falls through the switch and nothing is called.
   */
  function Dispatch(cx: Connection, b: Bindings): (d: Dispatched)
    requires CanDispatch(cx, b)
    ensures d.err.Some? <==> ConnTypeOf(cx).None?
    ensures d.err.None? || d.events == []
    ensures forall e :: e in d.events ==> IsMetricsOpen(e) || IsHandlerCall(e)
    ensures MetricsOpenedFirst(d.events)
    ensures |d.events| == 2 * HandlerCalls(d.events)
    ensures HandlerCalls(d.events) == (if ConnTypeOf(cx) in {Some(StreamConnectionType), Some(PacketConnectionType)} then 1 else 0)
    ensures forall e :: e in d.events && e.HandleStream? ==>
      ConnTypeOf(cx) == Some(StreamConnectionType) && e == HandleStream(b.stream.value, cx.id, TCPConnMetrics(b.metrics.value, cx.id))
    ensures forall e :: e in d.events && e.HandleAssociation? ==>
      ConnTypeOf(cx) == Some(PacketConnectionType) && e == HandleAssociation(b.association.value, cx.id, UDPAssocMetrics(b.metrics.value, cx.id))
  {
    match ConnTypeOf(cx)
    case None => Dispatched(Some(UnknownConnectionType), [])
    case Some(StreamConnectionType) =>
      var m := b.metrics.value;
      var es := [AddOpenTCPConnection(m, cx.id), HandleStream(b.stream.value, cx.id, TCPConnMetrics(m, cx.id))];
      assert HandlerCalls(es) == 1 by {
        assert es[1..][1..] == [];
        assert HandlerCalls(es[1..]) == 1;
      }
      Dispatched(None, es)
    case Some(PacketConnectionType) =>
      var m := b.metrics.value;
      var es := [AddOpenUDPAssociation(m, cx.id), HandleAssociation(b.association.value, cx.id, UDPAssocMetrics(m, cx.id))];
      assert HandlerCalls(es) == 1 by {
        assert es[1..][1..] == [];
        assert HandlerCalls(es[1..]) == 1;
      }
      Dispatched(None, es)
    case Some(OtherConnectionType) => Dispatched(None, [])
  }
}
