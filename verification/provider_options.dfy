/**
 * `getDefault` of the provider options: fill in the defaults, then, when no
 * mnemonic was given, pick a seed and a generator algorithm, sample 16 bytes
 * of entropy and turn them into a BIP-39 mnemonic.
 */
module ProviderOptions {
  import opened Wrappers
  import opened Prng
  import opened Sampling

  /** The connector a provider is built on. */
  datatype Flavor = Ethereum | Tezos

  /** How many fresh seed characters `getDefault` draws. */
  const SeedLength: nat := 10

  /** How many entropy bytes feed the mnemonic (128 bits: a 12-word phrase). */
  const EntropyLength: nat := 16

  /** The buffer handed to `entropyToMnemonic`. */
  type Entropy = e: seq<Byte> | |e| == EntropyLength witness seq(16, _ => 0)

  /** A mnemonic phrase; for 16 bytes of entropy BIP-39 yields 12 words, never the empty string. */
  type Phrase = s: string | s != "" witness "abandon"

  /**
   * The options a provider is given. Each field is a property that may be
   * absent; `others` holds the remaining options by name, which this code
   * only passes along. A JavaScript object has one property per name, which
   * `OthersAreDisjoint` states.
   */
  datatype Options = Options(
    subProviders: Option<seq<string>>,
    flavor: Option<Flavor>,
    seed: Option<string>,
    mnemonic: Option<string>,
    others: map<string, string>)

  /** The libraries `getDefault` calls: seedrandom's generators and bip39's `entropyToMnemonic`. */
  datatype Externals = Externals(seeded: Seeder, entropyToMnemonic: Entropy -> Phrase)

  /** The names of the properties that have their own field in `Options`. */
  const ModelledNames: set<string> := {"subProviders", "flavor", "seed", "mnemonic"}

  /** `others` does not hold a second copy of a modelled property. */
  predicate OthersAreDisjoint(o: Options) {
    o.others.Keys !! ModelledNames
  }

  /** JavaScript truthiness of an optional string: present and not empty. */
  predicate Truthy(s: Option<string>) {
    s.Some? && s.value != ""
  }

  /** The properties `getDefault` starts from before the general defaults are laid over them. */
  const BaseDefaults: Options := Options(Some([]), Some(Ethereum), None, None, map[])

  /** `Object.assign(target, source)`: every property `source` has overrides the one of `target`. */
  function Assign(target: Options, source: Options): (r: Options)
    ensures source.subProviders.Some? ==> r.subProviders == source.subProviders
    ensures source.subProviders.None? ==> r.subProviders == target.subProviders
    ensures source.flavor.Some? ==> r.flavor == source.flavor
    ensures source.flavor.None? ==> r.flavor == target.flavor
    ensures source.seed.Some? ==> r.seed == source.seed
    ensures source.seed.None? ==> r.seed == target.seed
    ensures source.mnemonic.Some? ==> r.mnemonic == source.mnemonic
    ensures source.mnemonic.None? ==> r.mnemonic == target.mnemonic
    ensures r.others.Keys == target.others.Keys + source.others.Keys
    ensures forall k :: k in source.others ==> r.others[k] == source.others[k]
    ensures forall k :: k in target.others && k !in source.others ==> r.others[k] == target.others[k]
  {
    Options(
      if source.subProviders.Some? then source.subProviders else target.subProviders,
      if source.flavor.Some? then source.flavor else target.flavor,
      if source.seed.Some? then source.seed else target.seed,
      if source.mnemonic.Some? then source.mnemonic else target.mnemonic,
      target.others + source.others)
  }

  /**
   * The merged options `getDefault` works on: `subProviders` and `flavor` are
   * always set, to `[]` and `ethereum` unless the general defaults set them;
   * everything else is the general defaults' own.
   */
  function MergeDefaults(general: Options): (merged: Options)
    ensures merged.subProviders.Some? && merged.flavor.Some?
    ensures general.subProviders.Some? ==> merged.subProviders == general.subProviders
    ensures general.subProviders.None? ==> merged.subProviders == Some([])
    ensures general.flavor.Some? ==> merged.flavor == general.flavor
    ensures general.flavor.None? ==> merged.flavor == Some(Ethereum)
    ensures merged.seed == general.seed && merged.mnemonic == general.mnemonic
    ensures merged.others == general.others
  {
    Assign(BaseDefaults, general)
  }

  /**
   * The merge leaves options alone exactly when `subProviders` and `flavor`
   * are already set: then every default is overridden.
   */
  lemma MergeDefaultsFixesCompleteOptions(o: Options)
    ensures MergeDefaults(o) == o <==> o.subProviders.Some? && o.flavor.Some?
  {
    if o.subProviders.Some? && o.flavor.Some? {
      assert MergeDefaults(o).others == o.others;
    }
  }

  /** A seed together with the algorithm that has to interpret it. */
  datatype ResolvedSeed = ResolvedSeed(value: string, algorithm: Algorithm)

  /**
   * The seed branch of `getDefault`: a caller's seed is kept and read with the
   * default algorithm; without one, ten characters drawn from the unseeded
   * `alea` stream `autoseed` become the seed, read with `alea`.
   */
  function ResolveSeed(seed: Option<string>, autoseed: Stream): (rs: ResolvedSeed)
    ensures rs.algorithm == Arc4 <==> Truthy(seed)
    ensures Truthy(seed) ==> rs.value == seed.value
    ensures !Truthy(seed) ==> rs.value == RandomAlphaNumericString(SeedLength, autoseed)
    ensures !Truthy(seed) ==> |rs.value| == SeedLength && IsAlphaNumericString(rs.value)
    ensures rs.value != ""
  {
    if Truthy(seed) then ResolvedSeed(seed.value, Arc4)
    else ResolvedSeed(RandomAlphaNumericString(SeedLength, autoseed), Alea)
  }

  /**
   * The mnemonic a resolved seed leads to: 16 bytes from its stream, through
   * BIP-39. Byte i of the transformed buffer is the scaled i-th draw of the
   * stream the resolved seed and algorithm give.
   */
  function DeriveMnemonic(rs: ResolvedSeed, ext: Externals): (m: Phrase)
    ensures exists e: Entropy {:trigger ext.entropyToMnemonic(e)} ::
      && (forall i :: 0 <= i < |e| ==> e[i] == Scale(ext.seeded(rs.algorithm, rs.value)(i), 255))
      && m == ext.entropyToMnemonic(e)
  {
    var e: Entropy := RandomBytes(EntropyLength, ext.seeded(rs.algorithm, rs.value));
    ext.entropyToMnemonic(e)
  }

  /**
   * `getDefault(options)`, given `general`, the result of
   * `getDefaultOptions(options)`, and `autoseed`, the stream of an `alea`
   * generator seeded from ambient randomness.
   */
  function GetDefault(general: Options, ext: Externals, autoseed: Stream): (r: Options)
    // Only `seed` and `mnemonic` are written after the merge.
    ensures r.subProviders == MergeDefaults(general).subProviders
    ensures r.flavor == MergeDefaults(general).flavor
    ensures r.others == general.others
    // A mnemonic already there: nothing else happens, even to a missing seed.
    ensures Truthy(general.mnemonic) ==> r == MergeDefaults(general)
    // A caller's seed: kept, and read with the default (back-compatible) algorithm.
    ensures !Truthy(general.mnemonic) && Truthy(general.seed) ==>
      && r.seed == general.seed
      && r.mnemonic == Some(ext.entropyToMnemonic(RandomBytes(EntropyLength, ext.seeded(Arc4, general.seed.value))))
    // No seed: a fresh ten-character alphanumeric seed is recorded and read with alea.
    ensures !Truthy(general.mnemonic) && !Truthy(general.seed) ==>
      && r.seed == Some(RandomAlphaNumericString(SeedLength, autoseed))
      && r.mnemonic == Some(ext.entropyToMnemonic(RandomBytes(EntropyLength, ext.seeded(Alea, r.seed.value))))
    ensures Truthy(r.mnemonic)
    ensures !Truthy(general.mnemonic) ==> Truthy(r.seed)
    ensures OthersAreDisjoint(general) ==> OthersAreDisjoint(r)
  {
    var merged := MergeDefaults(general);
    if Truthy(merged.mnemonic) then merged
    else
      var rs := ResolveSeed(merged.seed, autoseed);
      merged.(seed := Some(rs.value), mnemonic := Some(DeriveMnemonic(rs, ext)))
  }

  /**
   * `getDefault` as its own comment on the new-seed path intends: a newly
   * made seed is read with the same (default) algorithm that reads it when
   * it is supplied again, so the recorded seed replays the run. It differs
   * from `GetDefault` only on the new-seed path.
   */
  function IntendedGetDefault(general: Options, ext: Externals, autoseed: Stream): (r: Options)
    ensures r.subProviders == MergeDefaults(general).subProviders
    ensures r.flavor == MergeDefaults(general).flavor
    ensures r.others == general.others
    ensures Truthy(general.mnemonic) ==> r == MergeDefaults(general)
    // The seed is chosen as before: a caller's seed is kept, otherwise ten drawn characters.
    ensures !Truthy(general.mnemonic) && Truthy(general.seed) ==> r.seed == general.seed
    ensures !Truthy(general.mnemonic) && !Truthy(general.seed) ==>
      r.seed == Some(RandomAlphaNumericString(SeedLength, autoseed))
    // Every seed, newly made or supplied, is read with the default algorithm.
    ensures !Truthy(general.mnemonic) ==>
      && Truthy(r.seed)
      && r.mnemonic == Some(ext.entropyToMnemonic(RandomBytes(EntropyLength, ext.seeded(Arc4, r.seed.value))))
  {
    var merged := MergeDefaults(general);
    if Truthy(merged.mnemonic) then merged
    else
      var rs := ResolveSeed(merged.seed, autoseed).(algorithm := Arc4);
      merged.(seed := Some(rs.value), mnemonic := Some(DeriveMnemonic(rs, ext)))
  }
}
