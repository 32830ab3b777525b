/**
 * The cipher registry that `ShadowsocksHandler.Provision` builds from its
 * configured keys, stated as functions of the key list.
 *
 * The build keeps the first configuration of every `(cipher, secret)` pair,
 * in input order, derives a key for each of those, and stops with an error at
 * the first derivation that fails.  `Dedup` and `FirstIndices` say which
 * configurations are kept, `FirstFailure` where derivation stops, and `Build`
 * what the whole build returns; the lemmas below state what that means for
 * the input list.
 */
module KeyRegistry {
  import opened Wrappers
  import opened Collaborators

  /** One configured user key: `KeyConfig{ID, Cipher, Secret}`. */
  datatype KeyConfig = KeyConfig(id: string, cipher: string, secret: string)

  /** The deduplication key: `cipherKey{cipher, secret}`. */
  datatype CipherKey = CipherKey(cipher: string, secret: string)

  /** An entry of the cipher list: `outline.MakeCipherEntry(id, cryptoKey, secret)`. */
  datatype CipherEntry = CipherEntry(id: string, key: EncryptionKey, secret: string)

  /** The error `Provision` returns when a key cannot be derived; it names the key's ID. */
  datatype ProvisionError = KeyDerivationFailed(id: string, cause: KeyError)

  function KeyOf(cfg: KeyConfig): CipherKey
  {
    CipherKey(cfg.cipher, cfg.secret)
  }

  /** The `(cipher, secret)` pairs occurring in a key list. */
  function KeySet(ks: seq<KeyConfig>): set<CipherKey>
  {
    set cfg | cfg in ks :: KeyOf(cfg)
  }

  /** No earlier configuration in `ks` has the same `(cipher, secret)` as `ks[i]`. */
  predicate IsFirstOccurrence(ks: seq<KeyConfig>, i: int)
    requires 0 <= i < |ks|
  {
    forall j :: 0 <= j < i ==> KeyOf(ks[j]) != KeyOf(ks[i])
  }

  /** No two configurations of `cs` share a `(cipher, secret)` pair. */
  predicate DistinctIdentities(cs: seq<KeyConfig>)
  {
    forall k, l :: 0 <= k < l < |cs| ==> KeyOf(cs[k]) != KeyOf(cs[l])
  }

  /** Derivation succeeds for `cfg`. */
  predicate Derives(derive: KeyDeriver, cfg: KeyConfig)
  {
    derive(cfg.cipher, cfg.secret).Success?
  }

  predicate AllDerive(derive: KeyDeriver, cs: seq<KeyConfig>)
  {
    forall k :: 0 <= k < |cs| ==> Derives(derive, cs[k])
  }

  /** Appending a configuration adds its pair to the pairs seen. */
  lemma KeySetAppend(ks: seq<KeyConfig>, cfg: KeyConfig)
    ensures KeySet(ks + [cfg]) == KeySet(ks) + {KeyOf(cfg)}
  {
    var both := ks + [cfg];
    forall key | key in KeySet(both) ensures key in KeySet(ks) + {KeyOf(cfg)} {
      var c :| c in both && KeyOf(c) == key;
      if c != cfg {
        assert c in ks;
      }
    }
    forall key | key in KeySet(ks) ensures key in KeySet(both) {
      var c :| c in ks && KeyOf(c) == key;
      assert c in both;
    }
    assert cfg in both;
  }

  lemma KeySetMember(ks: seq<KeyConfig>, key: CipherKey)
    ensures key in KeySet(ks) <==> exists j :: 0 <= j < |ks| && KeyOf(ks[j]) == key
  {
    if key in KeySet(ks) {
      var c :| c in ks && KeyOf(c) == key;
      var j :| 0 <= j < |ks| && ks[j] == c;
    }
  }

  /**
   * The configurations the build derives keys for: the first one of every
   * `(cipher, secret)` pair, in input order.  Defined the way the loop walks
   * the list, one configuration at a time.
   */
  function Dedup(ks: seq<KeyConfig>): (r: seq<KeyConfig>)
    ensures |r| <= |ks|
  {
    if ks == [] then []
    else
      var n := |ks| - 1;
      if KeyOf(ks[n]) in KeySet(ks[..n]) then Dedup(ks[..n]) else Dedup(ks[..n]) + [ks[n]]
  }

  /**
   * `Dedup` keeps every `(cipher, secret)` pair of its input, and each of
   * them once.
   */
  lemma {:induction false} DedupKeepsEachPairOnce(ks: seq<KeyConfig>)
    ensures KeySet(Dedup(ks)) == KeySet(ks)
    ensures DistinctIdentities(Dedup(ks))
  {
    if ks != [] {
      var n := |ks| - 1;
      var prev := Dedup(ks[..n]);
      DedupKeepsEachPairOnce(ks[..n]);
      assert ks == ks[..n] + [ks[n]];
      KeySetAppend(ks[..n], ks[n]);
      if KeyOf(ks[n]) !in KeySet(ks[..n]) {
        KeySetAppend(prev, ks[n]);
        forall k | 0 <= k < |prev| ensures KeyOf(prev[k]) != KeyOf(ks[n]) {
          assert prev[k] in prev;
        }
      }
    }
  }

  /** The positions in `ks` of the configurations `Dedup` keeps, strictly increasing. */
  function FirstIndices(ks: seq<KeyConfig>): (r: seq<nat>)
    ensures forall k :: 0 <= k < |r| ==> r[k] < |ks|
    ensures forall k, l :: 0 <= k < l < |r| ==> r[k] < r[l]
  {
    if ks == [] then []
    else
      var n := |ks| - 1;
      var prev := FirstIndices(ks[..n]);
      if KeyOf(ks[n]) in KeySet(ks[..n]) then prev else prev + [n]
  }

  /** `Dedup` keeps the configurations at the positions `FirstIndices` lists, in that order. */
  lemma {:induction false} DedupAtFirstIndices(ks: seq<KeyConfig>)
    ensures |FirstIndices(ks)| == |Dedup(ks)|
    ensures forall k :: 0 <= k < |Dedup(ks)| ==> Dedup(ks)[k] == ks[FirstIndices(ks)[k]]
  {
    if ks != [] {
      var n := |ks| - 1;
      var init := ks[..n];
      DedupAtFirstIndices(init);
      var prev, d := FirstIndices(init), Dedup(init);
      forall k | 0 <= k < |d| ensures d[k] == ks[prev[k]] {
        assert init[prev[k]] == ks[prev[k]];
      }
      if KeyOf(ks[n]) in KeySet(init) {
        assert FirstIndices(ks) == prev && Dedup(ks) == d;
      } else {
        assert FirstIndices(ks) == prev + [n] && Dedup(ks) == d + [ks[n]];
      }
    }
  }

  /** Whether `ks[i]` is a first occurrence depends only on the positions up to `i`. */
  lemma FirstOccurrenceInPrefix(ks: seq<KeyConfig>, m: nat, i: nat)
    requires i < m <= |ks|
    ensures IsFirstOccurrence(ks[..m], i) == IsFirstOccurrence(ks, i)
  {
    assert forall j :: 0 <= j <= i ==> ks[..m][j] == ks[j];
  }

  /** `ks[i]` is a first occurrence exactly when its pair is not among those before it. */
  lemma FirstOccurrenceByKeySet(ks: seq<KeyConfig>, i: nat)
    requires i < |ks|
    ensures IsFirstOccurrence(ks, i) <==> KeyOf(ks[i]) !in KeySet(ks[..i])
  {
    KeySetMember(ks[..i], KeyOf(ks[i]));
    if KeyOf(ks[i]) in KeySet(ks[..i]) {
      var j :| 0 <= j < i && KeyOf(ks[..i][j]) == KeyOf(ks[i]);
      assert KeyOf(ks[j]) == KeyOf(ks[i]);
    }
  }

  /** The positions `FirstIndices` lists are exactly the first occurrences. */
  lemma {:induction false} FirstIndicesExact(ks: seq<KeyConfig>, i: int)
    requires 0 <= i < |ks|
    ensures i in FirstIndices(ks) <==> IsFirstOccurrence(ks, i)
  {
    var n := |ks| - 1;
    var init := ks[..n];
    var prev := FirstIndices(init);
    assert FirstIndices(ks) == if KeyOf(ks[n]) in KeySet(init) then prev else prev + [n];
    assert n !in prev by {
      forall k | 0 <= k < |prev| ensures prev[k] != n {
      }
    }
    if i < n {
      FirstIndicesExact(init, i);
      FirstOccurrenceInPrefix(ks, n, i);
    } else {
      FirstOccurrenceByKeySet(ks, n);
    }
  }

  /** Every position `FirstIndices` lists is a first occurrence. */
  lemma KeptAreFirstOccurrences(ks: seq<KeyConfig>)
    ensures forall k :: 0 <= k < |FirstIndices(ks)| ==> IsFirstOccurrence(ks, FirstIndices(ks)[k])
  {
    var fi := FirstIndices(ks);
    forall k | 0 <= k < |fi| ensures IsFirstOccurrence(ks, fi[k]) {
      FirstIndicesExact(ks, fi[k]);
    }
  }

  /**
   * Every configuration has a kept configuration with the same
   * `(cipher, secret)` at or before its own position.
   */
  lemma {:induction false} FirstOccurrenceAtOrBefore(ks: seq<KeyConfig>, j: int) returns (k: nat)
    requires 0 <= j < |ks|
    ensures k < |FirstIndices(ks)|
    ensures FirstIndices(ks)[k] <= j && KeyOf(ks[FirstIndices(ks)[k]]) == KeyOf(ks[j])
  {
    var n := |ks| - 1;
    var init := ks[..n];
    var prev := FirstIndices(init);
    if j < n || KeyOf(ks[n]) in KeySet(init) {
      var j' := j;
      if j == n {
        KeySetMember(init, KeyOf(ks[n]));
        j' :| 0 <= j' < |init| && KeyOf(init[j']) == KeyOf(ks[n]);
      }
      k := FirstOccurrenceAtOrBefore(init, j');
      FirstIndicesExtends(ks);
      assert init[prev[k]] == ks[prev[k]];
    } else {
      k := |prev|;
    }
  }

  /** `FirstIndices` of a list extends `FirstIndices` of the list without its last element. */
  lemma FirstIndicesExtends(ks: seq<KeyConfig>)
    requires ks != []
    ensures FirstIndices(ks[..|ks| - 1]) <= FirstIndices(ks)
  {
  }

  /** A list of distinct `(cipher, secret)` pairs has as many pairs as entries. */
  lemma {:induction false} DistinctKeySetSize(cs: seq<KeyConfig>)
    requires DistinctIdentities(cs)
    ensures |KeySet(cs)| == |cs|
  {
    if cs != [] {
      var n := |cs| - 1;
      assert cs == cs[..n] + [cs[n]];
      KeySetAppend(cs[..n], cs[n]);
      DistinctKeySetSize(cs[..n]);
      KeySetMember(cs[..n], KeyOf(cs[n]));
    }
  }

  /** The length of the longest prefix of `cs` whose keys all derive. */
  function FirstFailure(derive: KeyDeriver, cs: seq<KeyConfig>): (f: nat)
    ensures f <= |cs|
    ensures forall k :: 0 <= k < f ==> Derives(derive, cs[k])
    ensures f < |cs| ==> !Derives(derive, cs[f])
  {
    if cs == [] || !Derives(derive, cs[0]) then 0
    else 1 + FirstFailure(derive, cs[1..])
  }

  /** The entries built from configurations whose keys all derive, in order. */
  function Entries(derive: KeyDeriver, cs: seq<KeyConfig>): seq<CipherEntry>
    requires AllDerive(derive, cs)
  {
    seq(|cs|, k requires 0 <= k < |cs| =>
      CipherEntry(cs[k].id, derive(cs[k].cipher, cs[k].secret).value, cs[k].secret))
  }

  /** Deriving one more key appends its entry to the cipher list. */
  lemma EntriesAppend(derive: KeyDeriver, cs: seq<KeyConfig>, cfg: KeyConfig)
    requires AllDerive(derive, cs) && Derives(derive, cfg)
    ensures AllDerive(derive, cs + [cfg])
    ensures Entries(derive, cs + [cfg])
      == Entries(derive, cs) + [CipherEntry(cfg.id, derive(cfg.cipher, cfg.secret).value, cfg.secret)]
  {
    assert forall k :: 0 <= k < |cs| ==> (cs + [cfg])[k] == cs[k];
  }

  /**
   * What `Provision`'s loop produces: the cipher list, or the error for the
   * first kept configuration whose key does not derive.
   */
  function Build(derive: KeyDeriver, keys: seq<KeyConfig>): Result<seq<CipherEntry>, ProvisionError>
  {
    var cs := Dedup(keys);
    var f := FirstFailure(derive, cs);
    if f < |cs| then Failure(KeyDerivationFailed(cs[f].id, derive(cs[f].cipher, cs[f].secret).error))
    else Success(Entries(derive, cs))
  }

  /** The configurations handed to key derivation, in call order, until the build ends. */
  function Attempted(derive: KeyDeriver, keys: seq<KeyConfig>): seq<KeyConfig>
  {
    var cs := Dedup(keys);
    var f := FirstFailure(derive, cs);
    if f < |cs| then cs[..f + 1] else cs
  }

  /** An empty key list builds an empty cipher list and derives nothing. */
  lemma BuildEmpty(derive: KeyDeriver)
    ensures Build(derive, []) == Success([])
    ensures Attempted(derive, []) == []
  {
    assert Entries(derive, []) == [];
  }

  /**
   * The build succeeds exactly when every configured key derives: a skipped
   * duplicate has the same `(cipher, secret)`, so the same outcome, as the
   * configuration kept in its place.
   */
  lemma BuildSucceedsIffAllDerive(derive: KeyDeriver, keys: seq<KeyConfig>)
    ensures Build(derive, keys).Success? <==> AllDerive(derive, keys)
  {
    DedupAtFirstIndices(keys);
    var cs := Dedup(keys);
    var fi := FirstIndices(keys);
    if AllDerive(derive, keys) {
      assert forall k :: 0 <= k < |cs| ==> cs[k] == keys[fi[k]];
      assert AllDerive(derive, cs);
    }
    if Build(derive, keys).Success? {
      assert AllDerive(derive, cs);
      forall j | 0 <= j < |keys| ensures Derives(derive, keys[j]) {
        var k := FirstOccurrenceAtOrBefore(keys, j);
        assert cs[k] == keys[fi[k]];
      }
    }
  }

  /**
   * A successful build holds one entry per kept configuration, in input
   * order: entry `k` comes from position `FirstIndices(keys)[k]`, which is a
   * first occurrence, and carries that configuration's ID, secret and derived
   * key.  No two entries come from the same `(cipher, secret)` pair.
   */
  lemma BuildEntriesAreFirstOccurrences(derive: KeyDeriver, keys: seq<KeyConfig>)
    requires Build(derive, keys).Success?
    ensures var es, fi := Build(derive, keys).value, FirstIndices(keys);
      && |es| == |fi|
      && (forall k :: 0 <= k < |es| ==>
            fi[k] < |keys| && IsFirstOccurrence(keys, fi[k]) && Derives(derive, keys[fi[k]])
            && es[k] == CipherEntry(keys[fi[k]].id,
                                    derive(keys[fi[k]].cipher, keys[fi[k]].secret).value,
                                    keys[fi[k]].secret))
      && (forall k, l :: 0 <= k < l < |es| ==> fi[k] < fi[l] && KeyOf(keys[fi[k]]) != KeyOf(keys[fi[l]]))
  {
    DedupAtFirstIndices(keys);
    var fi := FirstIndices(keys);
    forall k | 0 <= k < |fi| ensures IsFirstOccurrence(keys, fi[k]) {
      FirstIndicesExact(keys, fi[k]);
    }
  }

  /** A successful build holds exactly as many entries as there are distinct `(cipher, secret)` pairs. */
  lemma BuildCount(derive: KeyDeriver, keys: seq<KeyConfig>)
    requires Build(derive, keys).Success?
    ensures |Build(derive, keys).value| == |KeySet(keys)|
  {
    DedupKeepsEachPairOnce(keys);
    DistinctKeySetSize(Dedup(keys));
  }

  /**
   * A failed build reports the first configuration, in input order, whose key
   * does not derive; that configuration is a first occurrence.
   */
  lemma BuildFailureNamesFirstBadKey(derive: KeyDeriver, keys: seq<KeyConfig>) returns (i: nat)
    requires Build(derive, keys).Failure?
    ensures i < |keys| && IsFirstOccurrence(keys, i)
    ensures !Derives(derive, keys[i])
    ensures forall j :: 0 <= j < i ==> Derives(derive, keys[j])
    ensures Build(derive, keys).error == KeyDerivationFailed(keys[i].id, derive(keys[i].cipher, keys[i].secret).error)
  {
    DedupAtFirstIndices(keys);
    var cs := Dedup(keys);
    var fi := FirstIndices(keys);
    var f := FirstFailure(derive, cs);
    i := fi[f];
    FirstIndicesExact(keys, i);
    forall j | 0 <= j < i ensures Derives(derive, keys[j]) {
      var k := FirstOccurrenceAtOrBefore(keys, j);
      assert k < f;
      assert cs[k] == keys[fi[k]];
    }
  }

  /**
   * Key derivation is only ever attempted on first occurrences, in input
   * order, and never twice for one `(cipher, secret)` pair.
   */
  lemma AttemptedAreFirstOccurrences(derive: KeyDeriver, keys: seq<KeyConfig>)
    ensures |Attempted(derive, keys)| <= |FirstIndices(keys)|
    ensures forall k :: 0 <= k < |Attempted(derive, keys)| ==>
      var i := FirstIndices(keys)[k];
      i < |keys| && IsFirstOccurrence(keys, i) && Attempted(derive, keys)[k] == keys[i]
    ensures DistinctIdentities(Attempted(derive, keys))
  {
    DedupAtFirstIndices(keys);
    KeptAreFirstOccurrences(keys);
    DedupKeepsEachPairOnce(keys);
    var cs := Dedup(keys);
    var a := Attempted(derive, keys);
    assert a <= cs;
    assert forall k :: 0 <= k < |a| ==> a[k] == cs[k];
  }

  /**
   * A successful build makes one derivation per entry; a failed one makes its
   * last derivation on the configuration it reports.
   */
  lemma AttemptedEndsAtReportedKey(derive: KeyDeriver, keys: seq<KeyConfig>)
    ensures Build(derive, keys).Success? ==> |Attempted(derive, keys)| == |Build(derive, keys).value|
    ensures Build(derive, keys).Failure? ==>
      var a := Attempted(derive, keys);
      && a != [] && !Derives(derive, a[|a| - 1])
      && Build(derive, keys).error == KeyDerivationFailed(a[|a| - 1].id, derive(a[|a| - 1].cipher, a[|a| - 1].secret).error)
  {
    var cs := Dedup(keys);
    var f := FirstFailure(derive, cs);
    if f < |cs| {
      assert Attempted(derive, keys)[f] == cs[f];
    }
  }

  /** `Dedup` of a prefix is a prefix of `Dedup`: the loop only ever appends. */
  lemma {:induction false} DedupPrefix(ks: seq<KeyConfig>, i: nat)
    requires i <= |ks|
    ensures Dedup(ks[..i]) <= Dedup(ks)
  {
    if i < |ks| {
      var n := |ks| - 1;
      assert ks[..n][..i] == ks[..i];
      DedupPrefix(ks[..n], i);
      assert Dedup(ks[..n]) <= Dedup(ks);
    } else {
      assert ks[..i] == ks;
    }
  }

  /** One step of the loop: a configuration is kept exactly when its pair has not been seen before. */
  lemma DedupAppend(p: seq<KeyConfig>, cfg: KeyConfig)
    ensures Dedup(p + [cfg]) == if KeyOf(cfg) in KeySet(p) then Dedup(p) else Dedup(p) + [cfg]
  {
    assert (p + [cfg])[..|p|] == p;
  }

  /**
   * When the loop reaches a new pair at position `i` whose key does not
   * derive, after every earlier kept key derived, the build fails there.
   */
  lemma BuildStopsAt(derive: KeyDeriver, ks: seq<KeyConfig>, i: nat)
    requires i < |ks| && KeyOf(ks[i]) !in KeySet(ks[..i])
    requires AllDerive(derive, Dedup(ks[..i]))
    requires !Derives(derive, ks[i])
    ensures Build(derive, ks) == Failure(KeyDerivationFailed(ks[i].id, derive(ks[i].cipher, ks[i].secret).error))
    ensures Attempted(derive, ks) == Dedup(ks[..i]) + [ks[i]]
  {
    var p := Dedup(ks[..i]);
    var q := p + [ks[i]];
    var cs := Dedup(ks);
    assert Dedup(ks[..i + 1]) == q by {
      assert ks[..i + 1] == ks[..i] + [ks[i]];
      DedupAppend(ks[..i], ks[i]);
    }
    assert q <= cs by {
      DedupPrefix(ks, i + 1);
    }
    assert forall k :: 0 <= k < |q| ==> cs[k] == q[k];
    FirstFailureAt(derive, cs, |p|);
    assert cs[..|p| + 1] == q;
  }

  /** `FirstFailure` is the position of the first configuration whose key does not derive. */
  lemma FirstFailureAt(derive: KeyDeriver, cs: seq<KeyConfig>, f: nat)
    requires f < |cs| && !Derives(derive, cs[f])
    requires forall k :: 0 <= k < f ==> Derives(derive, cs[k])
    ensures FirstFailure(derive, cs) == f
  {
  }

  /** When every kept key derives, the build returns their entries and derives each of them once. */
  lemma BuildCompletes(derive: KeyDeriver, ks: seq<KeyConfig>)
    requires AllDerive(derive, Dedup(ks))
    ensures Build(derive, ks) == Success(Entries(derive, Dedup(ks)))
    ensures Attempted(derive, ks) == Dedup(ks)
  {
    assert FirstFailure(derive, Dedup(ks)) == |Dedup(ks)|;
  }

  /**
   * Three keys where the second repeats the first one's `(cipher, secret)`
   * and the third has its own: the second is dropped, and the list holds the
   * first and the third, in that order.
   */
  lemma DuplicatePairDropped(derive: KeyDeriver, a: KeyConfig, b: KeyConfig, c: KeyConfig)
    requires KeyOf(b) == KeyOf(a) && KeyOf(c) != KeyOf(a)
    requires Derives(derive, a) && Derives(derive, c)
    ensures var r := Build(derive, [a, b, c]);
      r.Success? && |r.value| == 2 && r.value[0].id == a.id && r.value[1].id == c.id
  {
    var ab, abc := [a, b], [a, b, c];
    assert Dedup([a]) == [a] && KeySet([a]) == {KeyOf(a)} by {
      assert KeySet([]) == {} && Dedup([]) == [];
      DedupAppend([], a);
      KeySetAppend([], a);
      assert [] + [a] == [a];
    }
    assert Dedup(ab) == [a] && KeySet(ab) == {KeyOf(a)} by {
      DedupAppend([a], b);
      KeySetAppend([a], b);
      assert [a] + [b] == ab;
    }
    assert Dedup(abc) == [a, c] by {
      DedupAppend(ab, c);
      assert ab + [c] == abc;
    }
    assert Build(derive, abc) == Success(Entries(derive, [a, c])) by {
      BuildCompletes(derive, abc);
    }
  }

  /** A single key whose derivation fails (an unknown cipher, say) fails the build, naming that key. */
  lemma SingleBadKeyFails(derive: KeyDeriver, x: KeyConfig)
    requires !Derives(derive, x)
    ensures Build(derive, [x]) == Failure(KeyDerivationFailed(x.id, derive(x.cipher, x.secret).error))
  {
    assert KeySet([]) == {};
    DedupAppend([], x);
    assert [] + [x] == [x];
  }
}
