# Address derivation of the cross-check scripts

This project models the address-derivation core of the two independent
cross-check scripts, `python-verify.py` (built on bip_utils) and
`go-verify.go` (built on btcd/btcutil). Both scripts turn BIP 32 extended
public keys into Bitcoin addresses.

- **Single-sig.** Both scripts rewrite SLIP-132 keys (ypub, zpub, Ypub,
  Zpub, upub, …) with the canonical xpub/tpub version bytes. Python yields a
  canonical 78-byte key; Go's re-encoding carries an extra leading 0x00 byte
  (see the differences listed below). They derive
  `change/index` and build a legacy, nested-segwit, native-segwit or
  taproot address.
- **Multisig.** Both scripts derive every cosigner's key and sort the keys
  as BIP 67 requires. They assemble the `OP_M <keys> OP_N OP_CHECKMULTISIG`
  redeem script and hash it for p2sh, p2wsh or p2sh_p2wsh.

The libraries are parameters, fields of the datatype `Crypto.Lib`:

- SHA-256, with a 32-byte result;
- RIPEMD-160, with a 20-byte result;
- raw Base58 encode and decode;
- Bech32/Bech32m rendering;
- extended-key parsing;
- BIP 32 public CKD: a 33-byte child key or failure;
- txscript's script-number push for integers outside −1..16 (`scriptNumPush`).

Base58Check framing is modelled concretely: the payload, then the first four
bytes of its double SHA-256. This matters because the libraries frame
differently. bip_utils' `CheckEncode` frames the payload as given. btcutil's
`base58.CheckEncode(input, version)` puts the version byte first.

Modules, one per component:

| module | file | models |
|---|---|---|
| `Wrappers` | wrappers.dfy | `Option`, `Result` with the scripts' error kinds, and `Agree` |
| `Crypto` | crypto.dfy | byte types and `Lib`; Base58Check framing for both libraries; extended-key parsing |
| `Bitcoin` | bitcoin.dfy | network parameters; version bytes; script-type tags; address forms; witness programs; the multisig key pushes and hash chain |
| `Bip67` | bip67.dfy | byte-lexicographic order; the sorted permutation, which is unique |
| `Cosigners` | cosigners.dfy | per-cosigner results, which stop at the first failure; the permutation facts about them |
| `DerivationPath` | path.dfy | the path text `"{c}/{index}"` Python passes to bip_utils, and how it is parsed |
| `PyVerify` | python_verify.dfy | `derive_single_sig_bip_utils` and `derive_multisig_bip_utils` |
| `GoVerify` | go_verify.dfy | `getNetwork`, `convertToStandardXpub`, `deriveSingleSig`, `deriveMultisig`, and txscript's `ScriptBuilder` as a class |
| `CrossCheck` | cross_check.dfy | where the two scripts agree and where they differ |

Single-sig derivation and normalisation are pure branching in both scripts,
so they are functions. Multisig derivation is imperative in both. It is
modelled as methods, proved equal to the specification function `Multisig`
of each module:

- a key-collection loop;
- a redeem-script loop in Python, and calls on a `ScriptBuilder` object in Go;
- a 34-byte witness-program `array` in Go.

What the scripts do not check, and where they behave differently:

- Neither script checks that the threshold is in 1..16, that it does not
  exceed the key count, or that the key list is non-empty.
  - Python fails only when `0x50 + threshold` or `0x50 + n` is not a byte
    (`ByteRangeError`).
  - Go emits whatever txscript's `AddInt64` produces.
- Python single-sig takes the network from the key's prefix and ignores its
  `network` argument. Go always follows the argument.
- Go accepts a raw decoding of 78 bytes or more and never checks the
  checksum. It also re-encodes with an extra leading zero byte. The
  normalised key therefore carries a 79-byte payload, not the 78-byte
  payload that Python produces (`CrossCheck.NormalisedFramingDiffers`;
  see "## Findings").
- Threshold 0 gives 0x50 in Python and OP_0 in Go
  (`CrossCheck.ThresholdZeroDiffers`).

Three `Crypto` functions are plain definitions with no contract of their
own; the contracts that use them say what they mean:

- `Hash160`, RIPEMD-160 of SHA-256 (`btcutil.Hash160`, and the two hashlib
  calls of the Python multisig path), appears in the address forms of
  `Bitcoin.MultisigAddress` and of both `SingleSigAddress` functions.
- `ParseExtendedKey` (bip_utils `FromExtendedKey`, hdkeychain
  `NewKeyFromString`) maps a library parser failure to `ParseError`; see
  both `CosignerKey` functions.
- `GoDecode` is btcutil's lenient `base58.Decode`: the raw bytes, checksum
  included, and empty for text it cannot decode; see
  `GoVerify.ConvertToStandardXpub` and `Crypto.GoDecodeOfCheckEncode`.

The source paths in the table are relative to the repository root.

## Model

| member | source | states |
|---|---|---|
| Crypto.CheckDecode | scripts/verify-addresses/implementations/python-verify.py:68 | A success carries a payload whose checksum ends the raw Base58 decoding, and every raw decoding of the form payload ‖ checksum gives exactly that payload; every failure is `DecodeError` (bad character, under 4 bytes, checksum mismatch) |
| Crypto.CheckEncode | scripts/verify-addresses/implementations/python-verify.py:74 | Over a raw codec that round-trips, the text decodes to the payload followed by its checksum |
| Crypto.GoCheckEncode | scripts/verify-addresses/implementations/go-verify.go:143 | `base58.CheckEncode(input, version)` is Base58Check of the version byte followed by the input |
| Crypto.CheckRoundTrip | scripts/verify-addresses/implementations/python-verify.py:74 | Given a raw Base58 codec that round-trips, `CheckEncode` followed by `CheckDecode` gives the payload back |
| Crypto.GoDecodeOfCheckEncode | scripts/verify-addresses/implementations/go-verify.go:127 | A raw decoding of a Base58Check string is the payload followed by its 4-byte checksum |
| Bitcoin.Prefix | scripts/verify-addresses/implementations/python-verify.py:62 | `xpub[:4]`: a prefix of the key, 4 characters long or the whole key when it is shorter |
| Bitcoin.ExtKeyVersion | scripts/verify-addresses/implementations/python-verify.py:69-72 | Four bytes starting 0x04; the mainnet (xpub, 0488B21E) and testnet (tpub, 043587CF) versions differ at byte 1 |
| Bitcoin.RenderBase58RoundTrip | scripts/verify-addresses/implementations/go-verify.go:189 | A rendered Base58 address decodes back to its version byte and hash |
| Bitcoin.P2WPKHProgram | scripts/verify-addresses/implementations/go-verify.go:199 | The 22-byte program: 0x00, 0x14, then the 20-byte key hash |
| Bitcoin.P2WSHProgram | scripts/verify-addresses/implementations/python-verify.py:179 | The 34-byte program: 0x00, 0x20, then the 32-byte script hash |
| Bitcoin.XOnly | scripts/verify-addresses/implementations/python-verify.py:109 | `pub_key[1:33]`: 32 bytes; the compressed key is its parity byte followed by them |
| Bitcoin.KeyPushes | scripts/verify-addresses/implementations/python-verify.py:153-154 | The key pushes take 34 bytes per 33-byte key |
| Bitcoin.KeyPushesSnoc | scripts/verify-addresses/implementations/python-verify.py:154 | Each loop step appends the length byte and the key |
| Bitcoin.KeyPushesLayout | scripts/verify-addresses/implementations/python-verify.py:153-154 | Key i sits at offset 34·i + 1, after the byte 33 |
| Bitcoin.MultisigAddress | scripts/verify-addresses/implementations/python-verify.py:159-188 | p2sh gives version 0x05/0xC4 with RIPEMD160(SHA256(script)); p2wsh gives bc/tb v0 with SHA256(script); p2sh_p2wsh gives 0x05/0xC4 with HASH160(0x00 0x20 ‖ SHA256(script)); an unknown tag gives `UnknownScriptType` and no address; the network matches |
| Bip67.LexLessIrreflexive | scripts/verify-addresses/implementations/go-verify.go:270-275 | No key compares less than itself |
| Bip67.LexLess | scripts/verify-addresses/implementations/go-verify.go:271-274 | A proper prefix compares less, and no key compares less than one of its own prefixes |
| Bip67.LexLessFirstDifference | scripts/verify-addresses/implementations/go-verify.go:271-274 | `bytes.Compare(a,b) < 0` exactly when a is a proper prefix of b or a is smaller at the first differing byte |
| Bip67.LexLessAsymmetric | scripts/verify-addresses/implementations/go-verify.go:270-275 | `bytes.Compare(a,b) < 0` excludes `bytes.Compare(b,a) < 0` |
| Bip67.LexLessTransitive | scripts/verify-addresses/implementations/go-verify.go:270-275 | The comparator is transitive |
| Bip67.LexLessTotal | scripts/verify-addresses/implementations/go-verify.go:270-275 | Distinct byte strings are comparable |
| Bip67.LexLeqTransitive | scripts/verify-addresses/implementations/python-verify.py:148 | Non-strict byte order is transitive |
| Bip67.LexLeqAntisymmetric | scripts/verify-addresses/implementations/python-verify.py:148 | Non-strict byte order is antisymmetric |
| Bip67.Insert | scripts/verify-addresses/implementations/python-verify.py:148 | Inserting adds exactly that key to the multiset |
| Bip67.InsertSorted | scripts/verify-addresses/implementations/python-verify.py:148 | Inserting into a sorted list keeps it sorted |
| Bip67.SortKeys | scripts/verify-addresses/implementations/python-verify.py:148 | The result is ascending by raw bytes and a permutation of the keys |
| Bip67.SortedHeadsEqual | scripts/verify-addresses/implementations/go-verify.go:270-275 | Two sorted permutations of each other start with the same key |
| Bip67.SortedTail | scripts/verify-addresses/implementations/go-verify.go:270-275 | The tail of a sorted list is sorted and holds the remaining keys |
| Bip67.SortedPermutationUnique | scripts/verify-addresses/implementations/go-verify.go:270-275 | A sorted permutation is unique |
| Bip67.AnySortIsSortKeys | scripts/verify-addresses/implementations/go-verify.go:270-275 | Any result of `sort.Slice` or `list.sort` (sorted and a permutation) equals `SortKeys` |
| Bip67.SortKeysOrderInvariant | scripts/verify-addresses/implementations/python-verify.py:148 | Permuted inputs sort to the same list |
| Cosigners.MapSeq | scripts/verify-addresses/implementations/python-verify.py:130-145 | One result per cosigner, in input order |
| Cosigners.MapSeqSnoc | scripts/verify-addresses/implementations/go-verify.go:244-267 | One more loop iteration adds one more result |
| Cosigners.MapSeqMultiset | scripts/verify-addresses/implementations/python-verify.py:130-145 | Permuted cosigners give permuted results |
| Cosigners.Collect | scripts/verify-addresses/implementations/go-verify.go:243-267 | Succeeds exactly when every cosigner succeeds; then key i is cosigner i's key |
| Cosigners.CollectFirstFailure | scripts/verify-addresses/implementations/go-verify.go:247-264 | The first failing cosigner's error is the result; no partial list is used |
| Cosigners.CollectStopsAt | scripts/verify-addresses/implementations/go-verify.go:247-264 | A failure right after a successful prefix decides the error |
| Cosigners.CollectOkPermutation | scripts/verify-addresses/implementations/python-verify.py:130-145 | Success does not depend on cosigner order |
| Cosigners.CollectIsKeyOf | scripts/verify-addresses/implementations/python-verify.py:145 | A successful collection is the list of the keys |
| Cosigners.CollectPermutation | scripts/verify-addresses/implementations/python-verify.py:130-148 | Permuted cosigners collect to a permutation of the keys |
| Cosigners.CollectAgree | scripts/verify-addresses/implementations/go-verify.go:244-267 | Position-wise agreeing results collect to agreeing lists |
| DerivationPath.DigitChar | scripts/verify-addresses/implementations/python-verify.py:81 | A digit value gives a decimal digit character |
| DerivationPath.NatToString | scripts/verify-addresses/implementations/python-verify.py:81 | Decimal text is non-empty and all digits |
| DerivationPath.NatToStringRoundTrip | scripts/verify-addresses/implementations/python-verify.py:81 | Reading the decimal text back gives the number |
| DerivationPath.Split | scripts/verify-addresses/implementations/python-verify.py:81 | A path has at least one element |
| DerivationPath.NonEmpty | scripts/verify-addresses/implementations/python-verify.py:81 | bip_utils' `filter(None, …)` of the split path: exactly the non-empty elements are kept, and no new ones |
| DerivationPath.EmptyPathHasNoSteps | scripts/verify-addresses/implementations/python-verify.py:81 | "" and "/" denote no derivation step |
| DerivationPath.SplitNoSlash | scripts/verify-addresses/implementations/python-verify.py:81 | A slash-free prefix stays in the first element |
| DerivationPath.SplitTwo | scripts/verify-addresses/implementations/python-verify.py:81 | "a/b" with slash-free a, b splits into [a, b] |
| DerivationPath.DigitsHaveNoSlash | scripts/verify-addresses/implementations/python-verify.py:81 | Digit strings contain no '/' |
| DerivationPath.PathString | scripts/verify-addresses/implementations/python-verify.py:81 | `f"{change_idx}/{index}"` (also line 143): the decimal change level, one '/', then the decimal index with a leading '-' when negative; its parse is `PathStringParses` |
| DerivationPath.PathStringParses | scripts/verify-addresses/implementations/python-verify.py:81 | `f"{c}/{index}"` denotes exactly the steps [c, index] when 0 ≤ index < 2^32, and is rejected otherwise |
| DerivationPath.ChangeIndex | scripts/verify-addresses/implementations/go-verify.go:159-162 | The change level is 0 or 1, and 1 exactly when `change` is set |
| PyVerify.ConvertPayload | scripts/verify-addresses/implementations/python-verify.py:69-73 | The canonical version for the network, followed by every decoded byte after offset 4; same length |
| PyVerify.PrefixIsMainnet | scripts/verify-addresses/implementations/python-verify.py:63 | A mainnet prefix is four characters ending in "pub"; of the canonical prefixes only xpub is mainnet |
| PyVerify.Normalize | scripts/verify-addresses/implementations/python-verify.py:65-74 | xpub/tpub keys pass through unchanged; other keys are re-encoded exactly when their Base58Check decoding succeeds; failures are `DecodeError` |
| PyVerify.NormalizedPayload | scripts/verify-addresses/implementations/python-verify.py:133-140 | The re-encoded key decodes to the canonical version followed by `decoded[4:]` |
| PyVerify.DeriveSteps | scripts/verify-addresses/implementations/python-verify.py:81 | Every failure is `DeriveError`; a one-step path is one CKD step |
| PyVerify.DerivePath | scripts/verify-addresses/implementations/python-verify.py:81 | Every failure is `DeriveError`; an unparsable path fails; a path with no non-empty element, such as "", gives the key itself |
| PyVerify.DerivePathTwoSteps | scripts/verify-addresses/implementations/python-verify.py:80-81 | Deriving "{c}/{index}" is the CKD step c, then the CKD step index, for any change level c; out-of-range indices fail |
| PyVerify.SingleSigAddress | scripts/verify-addresses/implementations/python-verify.py:84-116 | legacy gives 0x00/0x6F with HASH160(pk); nested_segwit gives 0x05/0xC4 with HASH160(P2WPKH program); native_segwit gives bc/tb v0 with HASH160(pk); taproot gives bc/tb v1 with `pk[1:33]`; other tags give `UnknownScriptType`; the network matches |
| PyVerify.DeriveSingleSig | scripts/verify-addresses/implementations/python-verify.py:56-116 | An address only for a known tag and an index in 0..2^32−1; it is on mainnet exactly when the prefix is xpub/ypub/zpub/Ypub/Zpub and on testnet otherwise |
| PyVerify.SingleSigIgnoresNetwork | scripts/verify-addresses/implementations/python-verify.py:62-63 | The `network` argument does not affect the result |
| PyVerify.LegacyHashInNestedSegwit | scripts/verify-addresses/implementations/python-verify.py:85-99 | The nested-segwit hash commits to the legacy key hash |
| PyVerify.CosignerKey | scripts/verify-addresses/implementations/python-verify.py:131-144 | A cosigner fails only with `DecodeError`, `ParseError` or `DeriveError`; it succeeds exactly when normalising, parsing and both CKD steps do and the index is below 2^32; a success means the key normalised and parsed, the index is below 2^32, and the result is the public key of CKD step `change_idx` followed by CKD step `index` |
| PyVerify.SingleSigUsesCosignerKey | scripts/verify-addresses/implementations/python-verify.py:56-82 | Single-sig derivation is the cosigner derivation, with the network read off the prefix, followed by the script-type dispatch |
| PyVerify.RedeemScript | scripts/verify-addresses/implementations/python-verify.py:152-156 | Succeeds exactly when 0x50+threshold and 0x50+n are bytes; the script is 3 + 34n bytes: OP_M, the key pushes, OP_N, 0xAE |
| PyVerify.RedeemScriptLayout | scripts/verify-addresses/implementations/python-verify.py:153-154 | Sorted key i is at bytes 2+34i..35+34i, after its length byte |
| PyVerify.Multisig | scripts/verify-addresses/implementations/python-verify.py:119-188 | An address only for a multisig tag, with OP_M and OP_N bytes in range and every cosigner derived; it is on mainnet exactly when the argument is "mainnet" |
| PyVerify.AddressFromKeys | scripts/verify-addresses/implementations/python-verify.py:148-188 | Succeeds exactly when OP_M and OP_N are bytes and the tag is a multisig tag; the network follows the flag |
| PyVerify.CollectCosignerKeys | scripts/verify-addresses/implementations/python-verify.py:129-145 | The loop's key list, or the first cosigner's error, equals `Collect` of the per-cosigner results |
| PyVerify.BuildRedeemScript | scripts/verify-addresses/implementations/python-verify.py:152-156 | The byte-assembly loop computes `RedeemScript` |
| PyVerify.DeriveMultisig | scripts/verify-addresses/implementations/python-verify.py:119-188 | The method computes `Multisig`: collect, sort, assemble, hash |
| PyVerify.MultisigCosignerFailure | scripts/verify-addresses/implementations/python-verify.py:130-145 | The first failing cosigner's error is the result |
| PyVerify.MultisigOrderInvariant | scripts/verify-addresses/implementations/python-verify.py:148 | Permuting the xpubs gives the same address, or both fail |
| GoVerify.GetNetwork | scripts/verify-addresses/implementations/go-verify.go:110-115 | Mainnet parameters exactly for "mainnet", testnet3 otherwise |
| GoVerify.ConvertPayload | scripts/verify-addresses/implementations/go-verify.go:133-143 | The network's canonical version, then `decoded[4:len-4]`; length `len(decoded) − 4` |
| GoVerify.ConvertToStandardXpub | scripts/verify-addresses/implementations/go-verify.go:118-130 | xpub/tpub keys, and keys whose raw decoding is under 78 bytes, come back unchanged |
| GoVerify.ConvertedKeyPayload | scripts/verify-addresses/implementations/go-verify.go:134-143 | A converted key decodes to 0x00, the canonical version, then `decoded[4:len-4]` |
| GoVerify.ConvertedKeyLength | scripts/verify-addresses/implementations/go-verify.go:143 | A standard key of 82 raw bytes converts to one of 83 raw bytes, which is not the 82 that hdkeychain's `NewKeyFromString` accepts |
| GoVerify.ConvertToStandardXpubIntended | scripts/verify-addresses/implementations/go-verify.go:118-143 | The conversion as evidently intended: xpub/tpub keys and short decodings pass through, like the original |
| GoVerify.IntendedKeyPayload | scripts/verify-addresses/implementations/go-verify.go:134-143 | The intended conversion decodes to the canonical version followed by `decoded[4:len-4]`, and a key of 82 raw bytes stays at 82 |
| GoVerify.ConvertIgnoresChecksum | scripts/verify-addresses/implementations/go-verify.go:127-143 | Keys differing only in their checksum bytes convert alike |
| GoVerify.ConvertsFramedKey | scripts/verify-addresses/implementations/go-verify.go:127-143 | A well-formed SLIP-132 key with a 78-byte payload passes the length guard and is re-encoded from the canonical version and its payload after offset 4 |
| GoVerify.DeriveChangeThenIndex | scripts/verify-addresses/implementations/go-verify.go:164-172 | Succeeds exactly when both CKD steps do, with the second child; otherwise `DeriveChangeError` or `DeriveIndexError` |
| GoVerify.SingleSigAddress | scripts/verify-addresses/implementations/go-verify.go:181-231 | Per tag, the same address forms as Python, on the network named by the argument; unknown tags give `UnknownScriptType` |
| GoVerify.DeriveSingleSig | scripts/verify-addresses/implementations/go-verify.go:146-232 | An address only for a known tag, on mainnet exactly when the argument is "mainnet" |
| GoVerify.SingleSigDeriveFailure | scripts/verify-addresses/implementations/go-verify.go:164-172 | A failed change step gives `DeriveChangeError`, a failed index step `DeriveIndexError` |
| GoVerify.CosignerKey | scripts/verify-addresses/implementations/go-verify.go:245-266 | A cosigner fails only with `ParseError`, `DeriveChangeError` or `DeriveIndexError`; it succeeds exactly when parsing and both Derive calls do, and then carries the public key of the change child's index child |
| GoVerify.SingleSigUsesCosignerKey | scripts/verify-addresses/implementations/go-verify.go:146-178 | Single-sig derivation is the cosigner derivation followed by the script-type dispatch |
| GoVerify.ScriptBuilder.constructor | scripts/verify-addresses/implementations/go-verify.go:278 | An empty, error-free builder |
| GoVerify.ScriptBuilder.AddInt64 | scripts/verify-addresses/implementations/go-verify.go:279 | The new state is the `AddInt64` push of the value (OP_0, OP_1NEGATE, OP_1..16, or a number push), or failed past 10000 bytes |
| GoVerify.ScriptBuilder.AddData | scripts/verify-addresses/implementations/go-verify.go:281 | Appends 33 and the key, or fails past 10000 bytes |
| GoVerify.ScriptBuilder.AddOp | scripts/verify-addresses/implementations/go-verify.go:284 | Appends the opcode, or fails past 10000 bytes |
| GoVerify.ScriptBuilder.Script | scripts/verify-addresses/implementations/go-verify.go:286-289 | The script, or `ScriptBuildError` after a failed push |
| GoVerify.AddDataAllFailed | scripts/verify-addresses/implementations/go-verify.go:280-282 | A failed builder stays unchanged |
| GoVerify.AddDataAllEffect | scripts/verify-addresses/implementations/go-verify.go:280-282 | Pushing n keys fails exactly when 34n more bytes exceed 10000; otherwise it appends the key pushes |
| GoVerify.AddDataAllOverflow | scripts/verify-addresses/implementations/go-verify.go:280-282 | Keys whose pushes exceed 10000 bytes leave the builder failed |
| GoVerify.RedeemScriptSmall | scripts/verify-addresses/implementations/go-verify.go:278-284 | For threshold −1..16 and at most 16 keys: OP_m, the key pushes, OP_n, OP_CHECKMULTISIG |
| GoVerify.RedeemScriptTooLarge | scripts/verify-addresses/implementations/go-verify.go:286-289 | Keys beyond the size limit give `ScriptBuildError` |
| GoVerify.RedeemScript | scripts/verify-addresses/implementations/go-verify.go:278-289 | Fails only with `ScriptBuildError`, always when 34 bytes per key exceed 10000; a script is at most 10000 bytes and ends with OP_CHECKMULTISIG |
| GoVerify.RedeemScriptPushes | scripts/verify-addresses/implementations/go-verify.go:278-289 | Every script the builder produces is the `AddInt64` push of the threshold, the key pushes, the `AddInt64` push of n, then OP_CHECKMULTISIG |
| GoVerify.BuildRedeemScript | scripts/verify-addresses/implementations/go-verify.go:278-289 | The builder calls compute `RedeemScript` |
| GoVerify.WitnessProgram | scripts/verify-addresses/implementations/go-verify.go:316-319 | The filled 34-byte buffer is 0x00 0x20 ‖ SHA256(script) |
| GoVerify.CollectCosignerKeys | scripts/verify-addresses/implementations/go-verify.go:243-267 | The append loop computes `Collect` of the per-cosigner results |
| GoVerify.Multisig | scripts/verify-addresses/implementations/go-verify.go:234-336 | An address only for a multisig tag, with every cosigner derived and the key pushes within 10000 bytes; it is on mainnet exactly when the argument is "mainnet" |
| GoVerify.AddressFromKeys | scripts/verify-addresses/implementations/go-verify.go:270-336 | Succeeds exactly when the builder produces a script and the tag is a multisig tag; the network follows the argument |
| GoVerify.DeriveMultisig | scripts/verify-addresses/implementations/go-verify.go:234-336 | The method computes `Multisig`: collect, sort, build, hash |
| GoVerify.MultisigCosignerFailure | scripts/verify-addresses/implementations/go-verify.go:244-267 | The first failing cosigner's error is the result |
| GoVerify.MultisigOrderInvariant | scripts/verify-addresses/implementations/go-verify.go:270-275 | Permuting the xpubs gives the same address, or both fail |
| CrossCheck.NormalisedFramingDiffers | scripts/verify-addresses/implementations/go-verify.go:141-143 | For a SLIP-132 key, Python's key decodes to version ‖ payload[4:] and Go's to 0x00 ‖ version ‖ payload[4:]; the two strings differ |
| CrossCheck.IntendedConversionAgrees | scripts/verify-addresses/implementations/go-verify.go:118-143 | With the intended conversion, Go normalises a well-formed SLIP-132 key to exactly Python's string |
| CrossCheck.DerivationAgrees | scripts/verify-addresses/implementations/go-verify.go:164-172 | Python's path derivation and Go's two Derive calls agree |
| CrossCheck.SingleSigDispatchAgrees | scripts/verify-addresses/implementations/go-verify.go:181-231 | The single-sig switches give equal results |
| CrossCheck.SingleSigAgrees | scripts/verify-addresses/implementations/go-verify.go:146-232 | For an xpub/tpub key and a matching network argument, both derivations agree |
| CrossCheck.SingleSigNetworkSourceDiffers | scripts/verify-addresses/implementations/python-verify.py:62-63 | When both derive, a tpub key with "mainnet" gives a testnet address in Python and a mainnet one in Go, so the two addresses differ |
| CrossCheck.RedeemScriptsAgree | scripts/verify-addresses/implementations/go-verify.go:278-284 | For threshold in −1..16 except 0 and 1..16 keys, the scripts are byte-identical |
| CrossCheck.ThresholdZeroDiffers | scripts/verify-addresses/implementations/go-verify.go:279 | Threshold 0: Python's first byte is 0x50, Go's 0x00 |
| CrossCheck.CosignerAgrees | scripts/verify-addresses/implementations/go-verify.go:245-265 | An xpub/tpub cosigner gives the same key in both, or both fail |
| CrossCheck.CollectedKeysAgree | scripts/verify-addresses/implementations/go-verify.go:244-267 | The key-collection loops agree for xpub/tpub cosigners |
| CrossCheck.AddressFromKeysAgrees | scripts/verify-addresses/implementations/go-verify.go:270-336 | With 1..16 keys and threshold 1..16, sort, script and hash chain give the same address |
| CrossCheck.MultisigAgrees | scripts/verify-addresses/implementations/go-verify.go:234-336 | For xpub/tpub cosigners, threshold 1..16 and 1..16 keys, both multisig derivations agree |

## Findings

| source | as written | input that shows it | evidently intended | confidence | as-written member | corrected member |
|---|---|---|---|---|---|---|
| scripts/verify-addresses/implementations/go-verify.go:143 | `base58.CheckEncode(newKey[:len(newKey)-4], 0)` puts a version byte 0x00 in front of the 78-byte key, so the result decodes to 79 payload bytes plus checksum (83 raw bytes) | any well-formed zpub or ypub, i.e. the Base58Check text of a 78-byte payload whose prefix is not xpub/tpub; hdkeychain's `NewKeyFromString` then sees 83 instead of 82 raw bytes | Base58Check of the 78-byte key itself (82 raw bytes), the same string Python's normalisation produces | not executed; the length check inside hdkeychain is library behaviour outside the model | GoVerify.ConvertToStandardXpub, with GoVerify.ConvertedKeyLength and CrossCheck.NormalisedFramingDiffers | GoVerify.ConvertToStandardXpubIntended, with GoVerify.IntendedKeyPayload and CrossCheck.IntendedConversionAgrees |

The Go derivations keep the conversion as written, since they model the
script; the intended conversion is what `CrossCheck.IntendedConversionAgrees`
compares with Python.

## Left out

- Command-line and JSON handling is I/O and is not modelled: `main` in both
  scripts, `outputJSON`, `outputError`, argument counts, the `check`
  command and exit codes.
- Go's ignored `strconv.Atoi` errors and the `uint32(index)` conversion are
  not modelled. The Go model takes the index as a 32-bit unsigned value and
  the threshold as an integer.
- These primitives are parameters of `Lib`, described only by their
  lengths: SHA-256, RIPEMD-160, raw Base58, Bech32/Bech32m, the
  elliptic-curve arithmetic and HMAC-SHA512 inside BIP 32 CKD, and
  extended-key parsing.
- Address text is not modelled. An address is the value its encoder is
  given (version byte and hash, or HRP, witness version and program).
  `Bitcoin.Render` shows how it would be rendered, and
  `Bitcoin.RenderBase58RoundTrip` shows that a Base58 address decodes back
  to its version byte and hash.
- bip_utils' address encoders and their arguments are read as the standard
  address they are evidently meant to produce.
  - Single-sig: P2PKH / P2SH-P2WPKH / P2WPKH / P2TR of the key.
  - Multisig p2sh and p2sh_p2wsh: the given hash with the `net_ver` byte.
  - How bip_utils treats the positional coin-configuration arguments is not
    modelled.
- PyVerify.SingleSigAddress and GoVerify.SingleSigAddress: the taproot
  program is the untweaked x-only key that the scripts pass. Whether the
  encoder applies a BIP 341 key tweak is library behaviour and is not
  modelled.
- GoVerify.ScriptBuilder.AddInt64: for values outside −1..16, the number
  push is the opaque `scriptNumPush` and its size check is approximated.
- btcutil's `NewAddress*` constructors fail only on wrong hash or program
  lengths, which the length types rule out, so their error returns are left
  out.
- `ECPubKey` cannot fail on a key that parsing and derivation have already
  produced, so its error return is left out.
- The `python-bitcoinlib` import block is left out because it is unused.
- The dead `p2wpkh` computation in the nested_segwit branch is left out,
  because its value is never used.
- `hexToBytes` is left out because it is an unused debugging helper.
- bip_utils path parsing is modelled only for what it does with the
  plain-decimal path `"{c}/{index}"`: split at '/', drop empty elements,
  read each remaining element as a decimal below 2^32, and apply public CKD,
  which fails on hardened indices.
  Other path syntax (an "m/" prefix, hardened markers) is not modelled.
- `pub_keys.sort()` and `sort.Slice` sort in place. The model sorts by value
  with `SortKeys`; `Bip67.AnySortIsSortKeys` shows that every correct sort
  gives that same list. The in-place swapping and aliasing of the library
  sort are not modelled.
- GoVerify.ConvertToStandardXpub: `xpub[:4]` slices bytes and panics on a
  key shorter than 4 bytes. The Go model requires keys of at least 4
  characters (type `KeyString`) rather than modelling the panic. It counts
  characters, not bytes, so a non-ASCII key of 4 or more bytes but fewer
  than 4 characters is excluded, although Go would accept it.
- CrossCheck: both scripts are modelled over one `Lib`. The agreement
  lemmas (`SingleSigAgrees`, `CosignerAgrees`, `CollectedKeysAgree`,
  `MultisigAgrees`) therefore assume that bip_utils' `FromExtendedKey` and
  `DerivePath` parse and derive exactly as hdkeychain's `NewKeyFromString`
  and `Derive` do. Differences in what the two parsers accept are not
  modelled.
