# Mnemonic defaulting of ganache-core's provider options, in Dafny

This project models `getDefault` of `packages/core/src/options/provider-options.ts`
and its two sampling helpers. `getDefault` fills in the provider defaults. When no
mnemonic is given, it either keeps the caller's seed or makes a fresh 10-character
one. It then seeds a seedrandom generator with that seed, samples 16 entropy bytes
and turns them into a BIP-39 mnemonic. A caller's seed is read with seedrandom's
default algorithm, for back-compatibility. A fresh seed is read with `alea`.

Modules:

- `Wrappers` (`wrappers.dfy`): `Option`, which models a property that may be absent.
- `Prng` (`prng.dfy`): a generator is a `Stream` of draws in [0, 1) (`UnitInterval`).
  The library is a `Seeder` from (algorithm, seed) to streams. The algorithms are
  `Arc4` (seedrandom's default) and `Alea`. `Scale` is `(x * k) | 0`.
- `Sampling` (`sampling.dfy`): `randomBytes`, `randomAlphaNumericString` and the
  62-character alphabet.
- `ProviderOptions` (`provider_options.dfy`): the options record, `Object.assign`,
  the defaults merge, seed resolution and `getDefault`.
- `Properties` (`properties.dfy`): lemmas that relate several calls.

The external libraries are parameters, bundled in `Externals`:
- seedrandom's generators are an arbitrary `Seeder`;
- bip39's `entropyToMnemonic` is an arbitrary function from 16-byte buffers to
  non-empty phrases.

The result of the unseen `getDefaultOptions(options)` is `GetDefault`'s input
`general`. The ambient-seeded `alea()` generator of line 71 is the input stream
`autoseed`.

When a mnemonic is already present, `getDefault` returns the merged options
untouched (provider-options.ts:63, 80), so the seed can stay absent. The contract
of `GetDefault` states this.

## Model

| member | source | states |
|---|---|---|
| Prng.Scale | packages/core/src/options/provider-options.ts:27 | `(x * k) \| 0` on a draw in [0, 1) is the integer part of `x * k`, always in 0..k-1 |
| Sampling.RandomBytes | packages/core/src/options/provider-options.ts:24-30 | exactly `length` bytes; byte i comes from the i-th draw as `(draw * 255) \| 0`, taken in order; every byte is at most 254 |
| Sampling.EveryCappedByteStringIsSampled | packages/core/src/options/provider-options.ts:24-30 | conversely, every byte sequence with all bytes below 255 is produced by some stream, so 0..254 is exactly the byte range |
| Sampling.AlphabetLayout | packages/core/src/options/provider-options.ts:33-34 | the alphabet has 62 characters: A-Z at 0..25, a-z at 26..51, 0-9 at 52..61 |
| Sampling.AlphabetIndex | packages/core/src/options/provider-options.ts:33 | every alphanumeric character has a position in the alphabet holding that character |
| Sampling.AlphabetIsAlphaNumerics | packages/core/src/options/provider-options.ts:33 | a character is in the alphabet if and only if it is an ASCII letter or digit |
| Sampling.AlphabetChar | packages/core/src/options/provider-options.ts:38 | the character a draw selects is alphanumeric and sits at position `(draw * 62) \| 0` of the alphabet, so the index is never out of bounds |
| Sampling.RandomAlphaNumericString | packages/core/src/options/provider-options.ts:32-43 | exactly `length` characters; character i is the one selected by the i-th draw, taken in order; the text is alphanumeric |
| Sampling.EveryAlphaNumericStringIsSampled | packages/core/src/options/provider-options.ts:32-43 | conversely, every alphanumeric string is produced by some stream |
| ProviderOptions.Assign | packages/core/src/options/provider-options.ts:55-61 | `Object.assign`: each property the source has overrides the target's; the other properties keep the target's value; the key set is the union |
| ProviderOptions.MergeDefaults | packages/core/src/options/provider-options.ts:55-61 | `subProviders` and `flavor` are always set, to `[]` and `ethereum` unless the general defaults set them; `seed`, `mnemonic` and other options are the general defaults' own |
| ProviderOptions.MergeDefaultsFixesCompleteOptions | packages/core/src/options/provider-options.ts:55-61 | the merge returns its input unchanged if and only if `subProviders` and `flavor` are already set |
| ProviderOptions.ResolveSeed | packages/core/src/options/provider-options.ts:64-75 | the default algorithm is chosen if and only if the seed is truthy; a truthy seed is kept; otherwise the seed is 10 alphanumeric characters from the ambient stream, read with alea; the seed is never empty |
| ProviderOptions.DeriveMnemonic | packages/core/src/options/provider-options.ts:77-78 | the mnemonic is the transform of exactly 16 entropy bytes, where byte i is the scaled i-th draw of the resolved seed's stream under the resolved algorithm |
| ProviderOptions.GetDefault | packages/core/src/options/provider-options.ts:54-81 | if a mnemonic is present, returns the merged options unchanged. With a caller seed, keeps it and derives the mnemonic from 16 bytes of the default algorithm. With no seed, records a fresh 10-character seed and derives from alea. Only `seed` and `mnemonic` change after the merge. The result always has a mnemonic |
| ProviderOptions.IntendedGetDefault | packages/core/src/options/provider-options.ts:63-78 | the intended `getDefault`: the same merge, no-op on a present mnemonic and seed choice as lines 55-71, but every seed, newly made or supplied, is read with the default algorithm |
| Properties.MnemonicUsesOnlySixteenDraws | packages/core/src/options/provider-options.ts:77-78 | two seeded streams that agree on their first 16 draws give the same mnemonic |
| Properties.SameSeedSameMnemonic | packages/core/src/options/provider-options.ts:72-78 | with no mnemonic, the same caller seed always gives the same seed and mnemonic, whatever the other options and ambient randomness |
| Properties.ReplayRecordedSeed | packages/core/src/options/provider-options.ts:65-78 | feeding back the recorded seed without a mnemonic keeps that seed and derives with the default algorithm; if the first run had a caller seed, the replay equals it |
| Properties.FreshSeedReplayMayDiffer | packages/core/src/options/provider-options.ts:66-75 | although lines 67-68 record the fresh seed so that the next run reproduces the results, as written replaying it need not reproduce the first mnemonic: under concrete libraries where alea and the default algorithm differ, it does not |
| Properties.IntendedGetDefaultAgreesWithGetDefault | packages/core/src/options/provider-options.ts:63-78 | the intended and the as-written `getDefault` always record the same seed, and they agree entirely whenever a seed or a mnemonic is supplied |
| Properties.ReplayReproducesFirstRun | packages/core/src/options/provider-options.ts:66-78 | with the intended `getDefault`, feeding back the recorded seed with no mnemonic reproduces the first run exactly, for fresh and supplied seeds alike |
| Properties.GetDefaultIsIdempotent | packages/core/src/options/provider-options.ts:54-81 | a second defaulting pass whose general defaults are the first pass's result returns that result unchanged |
| Properties.EntropyIsSixteenCappedBytes | packages/core/src/options/provider-options.ts:77-78 | whenever a mnemonic is made, it is the transform of exactly 16 entropy bytes, none of them 255 |
| Properties.EveryAlphaNumericSeedCanBeMade | packages/core/src/options/provider-options.ts:66-71 | every 10-character alphanumeric string is the recorded fresh seed for some stream of draws `autoseed` |
| Properties.ByteMappingExample | packages/core/src/options/provider-options.ts:27 | the draws 0, 0.5 and 0.999 become the bytes 0, 127 and 254 |

## Findings

| source | as written | input that shows it | evidently intended | confidence | as-written member | corrected member |
|---|---|---|---|---|---|---|
| packages/core/src/options/provider-options.ts:67-74 | a fresh seed is recorded, but the mnemonic is derived from it with `alea` (lines 70, 77); the recorded seed supplied again takes the `else` branch and is read with default seedrandom (line 74) | options with neither seed nor mnemonic, then the returned seed passed back with no mnemonic | as the comment at lines 67-68 says, the recorded seed reproduces the same results on the next run, so both paths read the seed with the same algorithm | medium; not executed | Properties.FreshSeedReplayMayDiffer | ProviderOptions.IntendedGetDefault |

`GetDefault` remains the model of the program as written. `IntendedGetDefault` is the
corrected definition, and `Properties.ReplayReproducesFirstRun` proves the intended replay
property about it. The fix reads a newly made seed with the default algorithm. Reading with `alea` for
supplied seeds instead would break the back-compatibility that line 73 asks for.

## Left out

- The seedrandom algorithms (ARC4-based default and `alea`): they are an external library doing floating-point arithmetic. A seeded generator is an arbitrary function from (algorithm, seed) to streams of draws in [0, 1).
- IEEE-754 rounding of `x * 255` and `x * 62`, and the int32 semantics of `| 0`. Products are exact reals and `| 0` is the floor, which equals truncation on non-negative values below 2^31.
- bip39's `entropyToMnemonic`: an external, standard transform. It is an arbitrary function from 16-byte buffers to non-empty phrases. For 16 bytes, BIP-39 gives 12 words.
- `getDefaultOptions` from `./options` is not part of this model. Its result is the input `general`.
- The ambient seeding of `alea()` with no argument (line 71) is not deterministic. It is the input stream `autoseed`, which may be any stream of draws in [0, 1).
- Properties.EveryAlphaNumericSeedCanBeMade: holds for some stream `autoseed`; the model does not promise that seedrandom's autoseeded `alea` actually reaches every such stream, since that generator is not part of this model.
- Properties.GetDefaultIsIdempotent: the second call is given the first result directly as its general defaults; in the program it first passes through `getDefaultOptions`, which is not part of this model, so idempotence of the whole call holds only if that function returns the result unchanged.
- `FlavorMap`, `Flavors`, `Apis` and the connector imports (lines 2-3, 6 and 8-22): type-level plumbing over connector packages. Only the flavor tag is kept.
- `Buffer.allocUnsafe`: the buffer is a sequence of bytes. No value stored in it exceeds 254, so the `Uint8` wrap-around never applies.
- A property that `getDefaultOptions` returns with the value `undefined` is modelled as absent. `Object.assign` would copy it and override the base default.
- The options other than `subProviders`, `flavor`, `seed` and `mnemonic` are a string-keyed map. Their values are rendered as text, because this code only passes them along. Keys named like the four modelled properties are excluded by the predicate `OthersAreDisjoint`, which `GetDefault` preserves.
