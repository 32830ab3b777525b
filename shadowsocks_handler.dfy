/**
 * The Caddy layer-4 Shadowsocks handler: its configured keys, the handlers
 * and metrics sink `Provision` binds, and `Handle`, which dispatches each
 * tagged connection.  Calls to collaborators are appended to the ghost
 * `trace`, so their order and number can be stated.
 */
module OutlineCaddy {
  import opened Wrappers
  import opened Collaborators
  import opened KeyRegistry
  import opened ConnectionDispatch

  /** The key-derivation calls made for `cs`, in order. */
  function DerivationEvents(cs: seq<KeyConfig>): seq<Event>
  {
    seq(|cs|, k requires 0 <= k < |cs| => NewEncryptionKey(cs[k].cipher, cs[k].secret))
  }

  /**
   * The loop of `Provision`: walks `keys` in order, skips a configuration
   * whose `(cipher, secret)` was already seen, derives a key for every other
   * one, appends its entry, and stops at the first derivation that fails.
   * `attempted` lists the configurations handed to key derivation.
   */
  method BuildCipherList(derive: KeyDeriver, keys: seq<KeyConfig>)
    returns (built: Result<seq<CipherEntry>, ProvisionError>, ghost attempted: seq<KeyConfig>)
    ensures built == Build(derive, keys)
    ensures attempted == Attempted(derive, keys)
  {
    var cipherList: seq<CipherEntry> := [];
    var existingCiphers: set<CipherKey> := {};
    attempted := [];
    var i := 0;
    while i < |keys|
      invariant 0 <= i <= |keys|
      invariant existingCiphers == KeySet(keys[..i])
      invariant attempted == Dedup(keys[..i])
      invariant AllDerive(derive, attempted)
      invariant cipherList == Entries(derive, attempted)
    {
      var cfg := keys[i];
      var key := CipherKey(cfg.cipher, cfg.secret);
      assert KeySet(keys[..i + 1]) == existingCiphers + {key}
          && Dedup(keys[..i + 1]) == if key in existingCiphers then attempted else attempted + [cfg] by {
        assert keys[..i + 1] == keys[..i] + [cfg];
        KeySetAppend(keys[..i], cfg);
        DedupAppend(keys[..i], cfg);
      }
      if key !in existingCiphers {
        var cryptoKey := derive(cfg.cipher, cfg.secret);
        if cryptoKey.Failure? {
          BuildStopsAt(derive, keys, i);
          return Failure(KeyDerivationFailed(cfg.id, cryptoKey.error)), attempted + [cfg];
        }
        EntriesAppend(derive, attempted, cfg);
        attempted := attempted + [cfg];
        cipherList := cipherList + [CipherEntry(cfg.id, cryptoKey.value, cfg.secret)];
        existingCiphers := existingCiphers + {key};
      }
      i := i + 1;
    }
    assert keys[..i] == keys;
    BuildCompletes(derive, keys);
    built := Success(cipherList);
  }

  class ShadowsocksHandler {
    var keys: seq<KeyConfig>
    var streamHandler: Option<StreamHandler>
    var associationHandler: Option<AssociationHandler>
    var metrics: Option<ServiceMetrics>
    var logger: Option<Logger>

    /** The calls made to collaborators so far. */
    ghost var trace: seq<Event>

    /** A handler as Caddy creates it from its JSON configuration: keys set, nothing bound. */
    constructor (keys: seq<KeyConfig>)
      ensures this.keys == keys
      ensures streamHandler == None && associationHandler == None && metrics == None && logger == None
      ensures trace == []
    {
      this.keys := keys;
      streamHandler, associationHandler, metrics, logger := None, None, None, None;
      trace := [];
    }

    function CurrentBindings(): Bindings
      reads this
    {
      ConnectionDispatch.Bindings(streamHandler, associationHandler, metrics)
    }

    /**
     * Builds the cipher list from `keys` and, only if every kept key derives,
     * binds the handlers and the metrics sink.  On failure nothing but the
     * logger is assigned, and the error names the offending key.
     */
    method Provision(ctx: ProvisionContext, derive: KeyDeriver) returns (err: Option<ProvisionError>)
      modifies this
      ensures keys == old(keys)
      ensures logger == Some(ctx.logger)
      ensures trace == old(trace) + DerivationEvents(Attempted(derive, keys))
      ensures err.Some? <==> Build(derive, keys).Failure?
      ensures Build(derive, keys).Failure? ==>
        && err == Some(Build(derive, keys).error)
        && streamHandler == old(streamHandler)
        && associationHandler == old(associationHandler)
        && metrics == old(metrics)
      ensures Build(derive, keys).Success? ==>
        var options := HandlerOptions(ctx.logger, CipherList(Build(derive, keys).value), ctx.metrics, ctx.replayCache);
        && streamHandler == Some(StreamHandler(options))
        && associationHandler == Some(AssociationHandler(options))
        && metrics == ctx.metrics
    {
      logger := Some(ctx.logger);
      var built, attempted := BuildCipherList(derive, keys);
      trace := trace + DerivationEvents(attempted);
      if built.Failure? {
        return Some(built.error);
      }
      var ciphers := CipherList(built.value);

      var replayCache := ctx.replayCache;
      metrics := ctx.metrics;
      var handlers := NewShadowsocksHandlers(HandlerOptions(ctx.logger, ciphers, metrics, replayCache));
      streamHandler, associationHandler := Some(handlers.0), Some(handlers.1);
      err := None;
    }

    /**
     * Dispatches `cx` by its connection-type tag; the handler fields are
     * read, never written.
     */
    method Handle(cx: Connection) returns (err: Option<DispatchError>)
      requires CanDispatch(cx, CurrentBindings())
      modifies this`trace
      ensures err == Dispatch(cx, CurrentBindings()).err
      ensures trace == old(trace) + Dispatch(cx, CurrentBindings()).events
    {
      var connType := ConnTypeOf(cx);
      if connType.None? {
        return Some(UnknownConnectionType);
      }
      match connType.value {
        case StreamConnectionType =>
          var tracker := TCPConnMetrics(metrics.value, cx.id);
          trace := trace + [AddOpenTCPConnection(metrics.value, cx.id)];
          trace := trace + [HandleStream(streamHandler.value, cx.id, tracker)];
        case PacketConnectionType =>
          var tracker := UDPAssocMetrics(metrics.value, cx.id);
          trace := trace + [AddOpenUDPAssociation(metrics.value, cx.id)];
          trace := trace + [HandleAssociation(associationHandler.value, cx.id, tracker)];
        case OtherConnectionType =>
      }
      return None;
    }
  }
}
