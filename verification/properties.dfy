/**
 * What `getDefault` promises across calls: reproducibility from a seed,
 * what replaying a recorded seed does, idempotence, and the exact range of
 * the seeds and entropy it produces.
 */
module Properties {
  import opened Wrappers
  import opened Prng
  import opened Sampling
  import opened ProviderOptions

  /**
   * The mnemonic depends on the seed and algorithm only through the first 16
   * draws of their stream: later draws are never consumed.
   */
  lemma MnemonicUsesOnlySixteenDraws(rs1: ResolvedSeed, rs2: ResolvedSeed, ext: Externals)
    requires forall i :: 0 <= i < EntropyLength ==>
      ext.seeded(rs1.algorithm, rs1.value)(i) == ext.seeded(rs2.algorithm, rs2.value)(i)
    ensures DeriveMnemonic(rs1, ext) == DeriveMnemonic(rs2, ext)
  {
    var b1 := RandomBytes(EntropyLength, ext.seeded(rs1.algorithm, rs1.value));
    var b2 := RandomBytes(EntropyLength, ext.seeded(rs2.algorithm, rs2.value));
    assert b1 == b2;
  }

  /**
   * Reproducibility: without a mnemonic, the same caller seed always yields
   * the same seed and mnemonic, whatever the other options and whatever the
   * ambient randomness.
   */
  lemma SameSeedSameMnemonic(g1: Options, g2: Options, ext: Externals, auto1: Stream, auto2: Stream)
    requires !Truthy(g1.mnemonic) && !Truthy(g2.mnemonic)
    requires Truthy(g1.seed) && g1.seed == g2.seed
    ensures GetDefault(g1, ext, auto1).seed == GetDefault(g2, ext, auto2).seed
    ensures GetDefault(g1, ext, auto1).mnemonic == GetDefault(g2, ext, auto2).mnemonic
  {
  }

  /**
   * Replaying a recorded seed: feeding back the seed `getDefault` wrote, with
   * no mnemonic, keeps that seed and derives the mnemonic with the default
   * algorithm. When the first run was itself given that seed, the replay is
   * identical to it.
   */
  lemma ReplayRecordedSeed(general: Options, ext: Externals, auto1: Stream, auto2: Stream)
    requires !Truthy(general.mnemonic)
    ensures GetDefault(GetDefault(general, ext, auto1).(mnemonic := None), ext, auto2).seed
         == GetDefault(general, ext, auto1).seed
    ensures GetDefault(GetDefault(general, ext, auto1).(mnemonic := None), ext, auto2).mnemonic
         == Some(DeriveMnemonic(ResolvedSeed(GetDefault(general, ext, auto1).seed.value, Arc4), ext))
    ensures Truthy(general.seed) ==>
      GetDefault(GetDefault(general, ext, auto1).(mnemonic := None), ext, auto2) == GetDefault(general, ext, auto1)
  {
    var r := GetDefault(general, ext, auto1);
    MergeDefaultsFixesCompleteOptions(r.(mnemonic := None));
  }

  /** Library stand-ins under which `alea` and the default algorithm disagree on every seed. */
  const DivergentExternals: Externals :=
    Externals(
      (alg: Algorithm, seed: string) => (i: nat) => if alg == Alea then 0.0 else 0.5,
      (e: Entropy) => if e[0] == 0 then "abandon" else "zoo")

  /**
   * `getDefault` records a newly made seed so that the next run can reproduce
   * the results, but as written replaying it need not: that seed is first
   * read with `alea`, the replay reads it with the default algorithm, and
   * under these libraries the mnemonics differ.
   */
  lemma FreshSeedReplayMayDiffer(general: Options, autoseed: Stream)
    requires !Truthy(general.mnemonic) && !Truthy(general.seed)
    ensures GetDefault(GetDefault(general, DivergentExternals, autoseed).(mnemonic := None), DivergentExternals, autoseed).mnemonic
         != GetDefault(general, DivergentExternals, autoseed).mnemonic
  {
    var ext := DivergentExternals;
    var r := GetDefault(general, ext, autoseed);
    var seed := r.seed.value;
    var viaAlea := RandomBytes(EntropyLength, ext.seeded(Alea, seed));
    var viaArc4 := RandomBytes(EntropyLength, ext.seeded(Arc4, seed));
    assert viaAlea[0] == Scale(0.0, 255) == 0;
    assert viaArc4[0] == Scale(0.5, 255) == 127;
    ReplayRecordedSeed(general, ext, autoseed, autoseed);
  }

  /**
   * Idempotence of the defaulting pass: the options `getDefault` returns
   * already have a mnemonic and every default set, so a second pass whose
   * general defaults are that result returns it unchanged.
   */
  lemma GetDefaultIsIdempotent(general: Options, ext: Externals, auto1: Stream, auto2: Stream)
    ensures GetDefault(GetDefault(general, ext, auto1), ext, auto2) == GetDefault(general, ext, auto1)
  {
    var r := GetDefault(general, ext, auto1);
    MergeDefaultsFixesCompleteOptions(r);
  }

  /**
   * The intended `getDefault` differs from the program only when it has to
   * make a seed: given a seed or a mnemonic, the two agree, and they always
   * record the same seed.
   */
  lemma IntendedGetDefaultAgreesWithGetDefault(general: Options, ext: Externals, autoseed: Stream)
    ensures IntendedGetDefault(general, ext, autoseed).seed == GetDefault(general, ext, autoseed).seed
    ensures Truthy(general.mnemonic) || Truthy(general.seed) ==>
      IntendedGetDefault(general, ext, autoseed) == GetDefault(general, ext, autoseed)
  {
  }

  /**
   * With every seed read by the default algorithm, feeding back the recorded
   * seed with no mnemonic reproduces the first run exactly, whether that seed
   * was supplied or freshly made.
   */
  lemma ReplayReproducesFirstRun(general: Options, ext: Externals, auto1: Stream, auto2: Stream)
    requires !Truthy(general.mnemonic)
    ensures IntendedGetDefault(IntendedGetDefault(general, ext, auto1).(mnemonic := None), ext, auto2)
         == IntendedGetDefault(general, ext, auto1)
  {
    var r := IntendedGetDefault(general, ext, auto1);
    MergeDefaultsFixesCompleteOptions(r.(mnemonic := None));
  }

  /**
   * Whenever a mnemonic is made, it is BIP-39 applied to exactly 16 bytes of
   * entropy, none of them 255.
   */
  lemma EntropyIsSixteenCappedBytes(general: Options, ext: Externals, autoseed: Stream)
    requires !Truthy(general.mnemonic)
    ensures exists e: Entropy ::
      && (forall i :: 0 <= i < |e| ==> e[i] < 255)
      && GetDefault(general, ext, autoseed).mnemonic == Some(ext.entropyToMnemonic(e))
  {
    var rs := ResolveSeed(general.seed, autoseed);
    var e: Entropy := RandomBytes(EntropyLength, ext.seeded(rs.algorithm, rs.value));
    assert GetDefault(general, ext, autoseed).mnemonic == Some(ext.entropyToMnemonic(e));
  }

  /**
   * Given neither seed nor mnemonic, every ten-character alphanumeric string
   * is the seed `getDefault` records for some stream of draws `autoseed`;
   * with the converse in `GetDefault`, these are exactly the fresh seeds.
   */
  lemma EveryAlphaNumericSeedCanBeMade(general: Options, ext: Externals, s: string)
    requires !Truthy(general.mnemonic) && !Truthy(general.seed)
    requires |s| == SeedLength && IsAlphaNumericString(s)
    ensures exists autoseed: Stream ::
      GetDefault(general, ext, autoseed).seed == Some(s)
  {
    EveryAlphaNumericStringIsSampled(s);
    var autoseed: Stream :| RandomAlphaNumericString(|s|, autoseed) == s;
    assert GetDefault(general, ext, autoseed).seed == Some(s);
  }

  /** The byte mapping on the draws 0, 0.5 and 0.999: truncation of x * 255 gives 0, 127 and 254. */
  lemma ByteMappingExample()
    ensures RandomBytes(3, StreamOf([0.0, 0.5, 0.999])) == [0, 127, 254]
  {
    var rng := StreamOf([0.0, 0.5, 0.999]);
    var buf := RandomBytes(3, rng);
    assert buf[0] == Scale(0.0, 255) == 0;
    assert buf[1] == Scale(0.5, 255) == 127;
    assert buf[2] == Scale(0.999, 255) == 254;
  }
}
