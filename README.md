# Outline Shadowsocks handler for Caddy layer 4

This project models `ShadowsocksHandler`, the Caddy layer-4 handler that the
Outline server plugin uses to terminate Shadowsocks connections, and proves
properties of that model in Dafny. It has two operations:

- **`Provision`** turns the configured `keys` into a cipher list. It walks the
  keys in order and skips any key whose `(cipher, secret)` pair has already
  been seen, so the first occurrence wins. It derives an encryption key for
  every other one and appends a cipher entry for it. The first derivation
  that fails aborts provisioning with an error naming that key's ID. When
  every derivation succeeds, it builds the stream and association handlers
  from the logger, the cipher list, the metrics sink and the replay cache,
  and binds them together with the metrics sink.
- **`Handle`** dispatches a layer-4 connection by its Outline connection-type
  tag:
  - A stream connection first opens a TCP metrics tracker, then goes to the
    stream handler.
  - A packet connection first opens a UDP metrics tracker, then goes to the
    association handler.
  - An untagged connection, or one whose tag is not a `ConnectionType`, is
    an error, and nothing is called.
  - A connection whose tag is a `ConnectionType` but neither of the two
    values goes through the `switch` without a match and gets `nil`. Unlike
    a missing or wrongly typed tag, such a value is not an error.

Files:

- `wrappers.dfy` has `Option` and `Result`.
- `collaborators.dfy` has the values that come from code outside this model:
  encryption keys, the logger, the replay cache, the metrics sink, and the
  provisioning context. Key derivation (`shadowsocks.NewEncryptionKey`) is
  passed in as a function parameter.
- `key_registry.dfy` has the pure specification of the key loop:
  - `Dedup` gives the configurations kept, and `FirstIndices` their positions.
  - `FirstFailure` gives the first kept configuration whose key does not derive.
  - `Build` gives the outcome.
  - `Attempted` gives the configurations handed to key derivation.
  - The file also holds the lemmas about these functions.
- `dispatch.dfy` has the connection tag, the handlers, and the calls made to
  collaborators as `Event`s. `Dispatch` specifies what `Handle` does.
- `shadowsocks_handler.dfy` has the class `ShadowsocksHandler`:
  - Its fields are `keys`, the two handlers, `metrics` and `logger`.
  - A ghost `trace` records the calls made to collaborators.
  - `Provision` is proved against `Build` and `Attempted`. Its loop is in
    `BuildCipherList`.
  - `Handle` is proved against `Dispatch`.

## Model

| member | source | states |
|---|---|---|
| KeyRegistry.DedupKeepsEachPairOnce | outlinecaddy/shadowsocks_handler.go:81-100 | The kept configurations cover exactly the `(cipher, secret)` pairs of the input, and no pair is kept twice. |
| KeyRegistry.FirstIndices | outlinecaddy/shadowsocks_handler.go:87-92 | The positions of kept configurations lie inside the input and are strictly increasing, so input order is preserved. |
| KeyRegistry.DedupAtFirstIndices | outlinecaddy/shadowsocks_handler.go:87-92 | The `k`-th kept configuration is the input configuration at the `k`-th kept position. |
| KeyRegistry.FirstIndicesExact | outlinecaddy/shadowsocks_handler.go:88-92 | A position is kept if and only if no earlier configuration has the same `(cipher, secret)` pair, so the first occurrence wins. |
| KeyRegistry.KeptAreFirstOccurrences | outlinecaddy/shadowsocks_handler.go:88-92 | Every kept position is a first occurrence of its pair. |
| KeyRegistry.FirstOccurrenceAtOrBefore | outlinecaddy/shadowsocks_handler.go:88-92 | Every input configuration has a kept configuration with the same pair at or before its position. |
| KeyRegistry.FirstOccurrenceByKeySet | outlinecaddy/shadowsocks_handler.go:86-89 | A position is a first occurrence if and only if its pair is not yet in the set of pairs seen before it, which is the `existingCiphers` test. |
| KeyRegistry.DistinctKeySetSize | outlinecaddy/shadowsocks_handler.go:86-99 | A list with pairwise distinct pairs has exactly as many distinct pairs as elements. |
| KeyRegistry.FirstFailure | outlinecaddy/shadowsocks_handler.go:93-96 | Every kept configuration before the reported position derives, and the one at that position, if any, does not. |
| KeyRegistry.BuildEmpty | outlinecaddy/shadowsocks_handler.go:78-80 | An empty key list builds an empty cipher list without deriving anything. It is not an error. |
| KeyRegistry.BuildSucceedsIffAllDerive | outlinecaddy/shadowsocks_handler.go:87-100 | Provisioning succeeds if and only if every configured key, duplicates included, derives. |
| KeyRegistry.BuildEntriesAreFirstOccurrences | outlinecaddy/shadowsocks_handler.go:87-98 | On success, each entry comes from a first occurrence and carries its ID, derived key and secret. Entries are in input order, with distinct pairs. |
| KeyRegistry.BuildCount | outlinecaddy/shadowsocks_handler.go:87-100 | On success, there is one entry per distinct `(cipher, secret)` pair. |
| KeyRegistry.BuildFailureNamesFirstBadKey | outlinecaddy/shadowsocks_handler.go:93-96 | On failure, the error names the ID of the first configuration, in input order, whose key does not derive. That configuration is a first occurrence and every earlier one derives. |
| KeyRegistry.AttemptedAreFirstOccurrences | outlinecaddy/shadowsocks_handler.go:88-93 | Derivation is attempted only on first occurrences, in input order, and never twice for one pair. |
| KeyRegistry.AttemptedEndsAtReportedKey | outlinecaddy/shadowsocks_handler.go:93-98 | A success makes one derivation per entry. A failure makes its last derivation on the key it reports. |
| KeyRegistry.DedupPrefix | outlinecaddy/shadowsocks_handler.go:87-100 | The kept list of a prefix is a prefix of the kept list, because the loop only appends. |
| KeyRegistry.KeySetAppend | outlinecaddy/shadowsocks_handler.go:88-99 | One iteration adds the configuration's pair to the set of pairs seen. |
| KeyRegistry.DedupAppend | outlinecaddy/shadowsocks_handler.go:88-99 | One iteration keeps the configuration exactly when its pair has not been seen before. |
| KeyRegistry.EntriesAppend | outlinecaddy/shadowsocks_handler.go:93-98 | Deriving one more key appends that configuration's entry, with its ID, derived key and secret, to the cipher list. |
| KeyRegistry.BuildStopsAt | outlinecaddy/shadowsocks_handler.go:93-96 | A new pair whose key does not derive, after all earlier kept keys derived, is the failure reported. |
| KeyRegistry.FirstFailureAt | outlinecaddy/shadowsocks_handler.go:93-96 | The first failure is the first position whose key does not derive. |
| KeyRegistry.BuildCompletes | outlinecaddy/shadowsocks_handler.go:87-102 | When every kept key derives, the build returns their entries, and each is derived once. |
| KeyRegistry.DuplicatePairDropped | outlinecaddy/shadowsocks_handler.go:88-92 | With keys `[a, b, c]`, where `b` repeats `a`'s pair and `c` has its own, the list holds `a` and `c`, in that order. |
| KeyRegistry.SingleBadKeyFails | outlinecaddy/shadowsocks_handler.go:93-96 | A single key that does not derive fails provisioning, naming that key. |
| OutlineCaddy.BuildCipherList | outlinecaddy/shadowsocks_handler.go:85-100 | The loop over `keys` returns the outcome of `Build`, and hands derivation exactly the configurations of `Attempted`. |
| OutlineCaddy.ShadowsocksHandler.constructor | outlinecaddy/shadowsocks_handler.go:56-63 | A fresh handler has its keys set and nothing bound. |
| OutlineCaddy.ShadowsocksHandler.Provision | outlinecaddy/shadowsocks_handler.go:75-120 | The logger is always set. On failure, the error names the bad key and neither handlers nor metrics are assigned. On success, both handlers are built from the logger, the deduplicated cipher list, the metrics sink and the replay cache, and the metrics sink is bound. Derivation calls are recorded in order. |
| OutlineCaddy.ShadowsocksHandler.Handle | outlinecaddy/shadowsocks_handler.go:123-138 | Returns and calls exactly what `Dispatch` specifies, and changes nothing but the record of calls. |
| ConnectionDispatch.Dispatch | outlinecaddy/shadowsocks_handler.go:123-138 | An untagged connection, or one whose tag is not a `ConnectionType`, is an error and nothing is called. A stream or packet connection first opens its metrics tracker, then goes to exactly one handler of its kind, with that tracker. Any other tag calls nothing and returns no error. |

## Left out

- Logging is not modelled. This covers the warnings for an empty key list and for a missing replay cache or metrics sink, and the debug line for a skipped duplicate. The logger itself is modelled as a value that `Provision` assigns.
- Module registration, `CaddyModule`, the module ID and `defaultNatTimeout` carry no behaviour of the two operations. The plugin's `main.go` is not part of this model.
- Several collaborators are opaque values or parameters. Their internals are not part of this model:
  - `shadowsocks.NewEncryptionKey` is the `derive` parameter.
  - `outline.MakeCipherEntry` and `NewCipherList`/`Update` build `CipherEntry` and `CipherList`, which hold the entries in order.
  - `NewShadowsocksHandlers` and its option functions become a record of the options.
- The bodies of `HandleStream` and `HandleAssociation` are not modelled. Neither are the metrics trackers' behaviour or any concurrency between connections. `Handle` records the calls in order.
- The error message text is not modelled, including the wrapped cause's formatting. A failure is `KeyDerivationFailed(id, cause)`.
- `&replayCache` points to a nil interface when the context holds no replay cache. The model represents that as `None`.
- The connection-type declaration lives in another file of the repository. It is modelled as two named values plus any other value of the same type.
- OutlineCaddy.ShadowsocksHandler.Handle: requires the bound handler and the metrics sink for a stream or packet connection, and requires a stream connection's socket to be a `transport.StreamConn`. Without them the Go code dereferences nil or fails a type assertion and panics. That path is not modelled.
- OutlineCaddy.ShadowsocksHandler.Provision: the derivation calls are appended to the trace once the loop ends, not one by one. No other recorded call happens during the loop, so the recorded order is the same.
- KeyRegistry.DuplicatePairDropped: stated for any three keys of that shape, not for concrete cipher names and secrets.
