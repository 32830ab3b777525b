/**
 * Opaque stand-ins for the values the Shadowsocks handler receives from code
 * outside this model: the Shadowsocks key derivation, the Caddy provisioning
 * context, the replay cache and the metrics sink.  Only their identity
 * matters here; none of their internals is modelled.
 */
module Collaborators {
  import opened Wrappers

  /** Key material produced by `shadowsocks.NewEncryptionKey`; never inspected. */
  datatype EncryptionKey = EncryptionKey(material: seq<bv8>)

  /** The error `shadowsocks.NewEncryptionKey` returns for an unusable cipher or secret. */
  datatype KeyError = KeyError(reason: string)

  /**
   * `shadowsocks.NewEncryptionKey(cipher, secret)`: a partial function of the
   * cipher name and the secret, passed in as a parameter so that nothing is
   * assumed about which pairs it accepts.
   */
  type KeyDeriver = (string, string) -> Result<EncryptionKey, KeyError>

  /** The structured logger returned by `ctx.Slogger()`. */
  datatype Logger = Logger(name: string)

  /** An `outline.ReplayCache` found in the provisioning context. */
  datatype ReplayCache = ReplayCache(handle: nat)

  /** An `outline.ServiceMetrics` sink found in the provisioning context. */
  datatype ServiceMetrics = ServiceMetrics(handle: nat)

  /**
   * What `Provision` reads from its `caddy.Context`: the logger, and the two
   * context values whose type assertions may fail (`None` when they do).
   */
  datatype ProvisionContext = ProvisionContext(
    logger: Logger,
    replayCache: Option<ReplayCache>,
    metrics: Option<ServiceMetrics>)
}
