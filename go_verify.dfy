/** The address derivation of go-verify.go (btcd/btcutil).  Network
    selection, key normalisation and single-sig derivation are conditional
    logic and are written as functions; multisig derivation collects keys in
    a loop, drives a stateful txscript ScriptBuilder and fills a 34-byte
    witness-program buffer, and is written as methods proved against the
    function `Multisig`. */
module GoVerify {
  import opened Wrappers
  import opened Crypto
  import opened Bitcoin
  import opened Bip67
  import opened Cosigners
  import opened DerivationPath

  /** A key string long enough for xpub[:4]; a shorter one makes Go panic. */
  type KeyString = s: string | |s| >= 4 witness "xpub"

  /** getNetwork: mainnet parameters for "mainnet", testnet3 for anything else. */
  function GetNetwork(network: string): (p: NetParams)
    ensures p == MainNetParams <==> network == "mainnet"
    ensures p == TestNet3Params <==> network != "mainnet"
  {
    if network == "mainnet" then MainNetParams else TestNet3Params
  }

  /** The bytes handed to base58.CheckEncode: the new version, then the
      decoded key from offset 4 with its last four (checksum) bytes cut off. */
  function ConvertPayload(decoded: Bytes, network: string): (p: Bytes)
    requires |decoded| >= 8
    ensures |p| == |decoded| - 4
    ensures p[..4] == ExtKeyVersion(network == "mainnet")
    ensures p[4..] == decoded[4..|decoded| - 4]
  {
    var newVersion := if network == "mainnet" then [0x04, 0x88, 0xB2, 0x1E] else [0x04, 0x35, 0x87, 0xCF];
    var newKey := newVersion + decoded[4..];
    assert newKey[4..|newKey| - 4] == decoded[4..|decoded| - 4];
    newKey[..|newKey| - 4]
  }

  /** convertToStandardXpub: keys already in xpub/tpub form, and keys whose
      raw decoding is shorter than 78 bytes, come back unchanged. */
  function ConvertToStandardXpub(lib: Lib, xpub: KeyString, network: string): (s: string)
    ensures IsCanonicalPrefix(xpub[..4]) ==> s == xpub
    ensures |GoDecode(lib, xpub)| < 78 ==> s == xpub
  {
    var prefix := xpub[..4];
    if prefix == "xpub" || prefix == "tpub" then xpub
    else
      var decoded := GoDecode(lib, xpub);
      if |decoded| < 78 then xpub
      else GoCheckEncode(lib, ConvertPayload(decoded, network), 0)
  }

  /** What a converted key holds: a leading 0x00 (the version argument of
      base58.CheckEncode), the canonical version chosen by the network
      argument, and the decoded bytes after offset 4 less the old checksum. */
  lemma ConvertedKeyPayload(lib: Lib, xpub: KeyString, network: string)
    requires RawRoundTrip(lib)
    requires !IsCanonicalPrefix(xpub[..4]) && |GoDecode(lib, xpub)| >= 78
    ensures var d := GoDecode(lib, xpub);
      CheckDecode(lib, ConvertToStandardXpub(lib, xpub, network)) ==
        Ok([0x00] + ExtKeyVersion(network == "mainnet") + d[4..|d| - 4])
  {
    var d := GoDecode(lib, xpub);
    var p := ConvertPayload(d, network);
    CheckRoundTrip(lib, [0x00] + p);
    assert p == p[..4] + p[4..];
    assert [0x00] + p == [0x00] + ExtKeyVersion(network == "mainnet") + d[4..|d| - 4];
  }

  /** A well-formed Base58Check key of at least 78 payload bytes passes the
      length guard: it is re-encoded from the canonical version and its
      payload after offset 4, whatever its old checksum and version were. */
  lemma ConvertsFramedKey(lib: Lib, payload: Bytes, network: string)
    requires RawRoundTrip(lib) && |payload| >= 74
    requires |CheckEncode(lib, payload)| >= 4 && !IsCanonicalPrefix(CheckEncode(lib, payload)[..4])
    ensures ConvertToStandardXpub(lib, CheckEncode(lib, payload), network) ==
      GoCheckEncode(lib, ExtKeyVersion(network == "mainnet") + payload[4..], 0)
  {
    GoDecodeOfCheckEncode(lib, payload);
    var d := GoDecode(lib, CheckEncode(lib, payload));
    assert d[4..|d| - 4] == payload[4..];
    var p := ConvertPayload(d, network);
    assert p == p[..4] + p[4..];
  }

  /** A standard 78-byte key (82 raw bytes with its checksum) converts to a
      key of 83 raw bytes: one more than the 82 that hdkeychain's
      NewKeyFromString accepts. */
  lemma ConvertedKeyLength(lib: Lib, xpub: KeyString, network: string)
    requires RawRoundTrip(lib)
    requires !IsCanonicalPrefix(xpub[..4]) && |GoDecode(lib, xpub)| == 82
    ensures |GoDecode(lib, ConvertToStandardXpub(lib, xpub, network))| == 83
  {
    var p := ConvertPayload(GoDecode(lib, xpub), network);
    GoDecodeOfCheckEncode(lib, [0x00] + p);
  }

  /** The conversion as evidently intended: the new version and the old
      payload are framed as they stand, as base58.CheckEncode(newKey[1:n], newKey[0])
      with n = len(newKey) - 4 would, without a further version byte. */
  function ConvertToStandardXpubIntended(lib: Lib, xpub: KeyString, network: string): (s: string)
    ensures IsCanonicalPrefix(xpub[..4]) ==> s == xpub
    ensures |GoDecode(lib, xpub)| < 78 ==> s == xpub
  {
    var prefix := xpub[..4];
    if prefix == "xpub" || prefix == "tpub" then xpub
    else
      var decoded := GoDecode(lib, xpub);
      if |decoded| < 78 then xpub
      else
        var p := ConvertPayload(decoded, network);
        assert [p[0]] + p[1..] == p;
        GoCheckEncode(lib, p[1..], p[0])
  }

  /** The intended conversion keeps the payload length: a standard key
      converts to the canonical version and the old payload after offset 4,
      82 raw bytes in all, as hdkeychain expects. */
  lemma IntendedKeyPayload(lib: Lib, xpub: KeyString, network: string)
    requires RawRoundTrip(lib)
    requires !IsCanonicalPrefix(xpub[..4]) && |GoDecode(lib, xpub)| >= 78
    ensures var d := GoDecode(lib, xpub);
      CheckDecode(lib, ConvertToStandardXpubIntended(lib, xpub, network)) ==
        Ok(ExtKeyVersion(network == "mainnet") + d[4..|d| - 4])
    ensures |GoDecode(lib, xpub)| == 82 ==> |GoDecode(lib, ConvertToStandardXpubIntended(lib, xpub, network))| == 82
  {
    var d := GoDecode(lib, xpub);
    var p := ConvertPayload(d, network);
    assert [p[0]] + p[1..] == p;
    CheckRoundTrip(lib, p);
    GoDecodeOfCheckEncode(lib, p);
    assert p == p[..4] + p[4..];
  }

  /** The old checksum is never checked: keys whose raw decodings differ only
      in their last four bytes convert to the same string. */
  lemma ConvertIgnoresChecksum(lib: Lib, x: KeyString, y: KeyString, network: string)
    requires !IsCanonicalPrefix(x[..4]) && !IsCanonicalPrefix(y[..4])
    requires |GoDecode(lib, x)| >= 78 && |GoDecode(lib, x)| == |GoDecode(lib, y)|
    requires GoDecode(lib, x)[..|GoDecode(lib, x)| - 4] == GoDecode(lib, y)[..|GoDecode(lib, y)| - 4]
    ensures ConvertToStandardXpub(lib, x, network) == ConvertToStandardXpub(lib, y, network)
  {
    var d, e := GoDecode(lib, x), GoDecode(lib, y);
    var n := |d| - 4;
    assert d[4..n] == d[..n][4..] && e[4..n] == e[..n][4..];
    var p, q := ConvertPayload(d, network), ConvertPayload(e, network);
    assert p == p[..4] + p[4..] && q == q[..4] + q[4..];
  }

  /** extKey.Derive(changeIdx), then childKey.Derive(index), each with its own error. */
  function DeriveChangeThenIndex(lib: Lib, key: ExtKey, changeIdx: uint32, index: uint32): (r: Result<ExtKey>)
    ensures r.Ok? <==> lib.ckd(key, changeIdx).Some? && lib.ckd(lib.ckd(key, changeIdx).value, index).Some?
    ensures r.Err? ==> r.error == if lib.ckd(key, changeIdx).None? then DeriveChangeError else DeriveIndexError
    ensures r.Ok? ==> r.value == lib.ckd(lib.ckd(key, changeIdx).value, index).value
  {
    match lib.ckd(key, changeIdx)
    case None => Err(DeriveChangeError)
    case Some(childKey) =>
      match lib.ckd(childKey, index)
      case None => Err(DeriveIndexError)
      case Some(derivedKey) => Ok(derivedKey)
  }

  /** The single-sig script-type switch. */
  function SingleSigAddress(lib: Lib, pk: PubKey, scriptType: string, network: string): (r: Result<Address>)
    ensures r.Ok? <==> scriptType in SingleSigTypes
    ensures r.Err? ==> r.error == UnknownScriptType(scriptType)
    ensures r.Ok? ==> (OnMainnet(r.value) <==> network == "mainnet") && (OnTestnet(r.value) <==> network != "mainnet")
    ensures scriptType == "legacy" ==>
      r == Ok(Base58Address(if network == "mainnet" then 0x00 else 0x6F, Hash160(lib, pk)))
    ensures scriptType == "nested_segwit" ==>
      r == Ok(Base58Address(if network == "mainnet" then 0x05 else 0xC4, Hash160(lib, [0x00, 0x14] + Hash160(lib, pk))))
    ensures scriptType == "native_segwit" ==>
      r == Ok(SegwitAddress(if network == "mainnet" then "bc" else "tb", 0, Hash160(lib, pk)))
    ensures scriptType == "taproot" ==>
      r == Ok(SegwitAddress(if network == "mainnet" then "bc" else "tb", 1, pk[1..33]))
  {
    var net := GetNetwork(network);
    var pubKeyHash := Hash160(lib, pk);
    if scriptType == "legacy" then
      Ok(Base58Address(net.pubKeyHashAddrID, pubKeyHash))
    else if scriptType == "nested_segwit" then
      // PayToAddrScript of the P2WPKH address, then its HASH160.
      var script := P2WPKHProgram(pubKeyHash);
      Ok(PayToScriptHash(net, Hash160(lib, script)))
    else if scriptType == "native_segwit" then
      Ok(PayToWitnessPubKeyHash(lib, net, pk))
    else if scriptType == "taproot" then
      Ok(SegwitAddress(net.bech32HRP, 1, pk[1..33]))
    else Err(UnknownScriptType(scriptType))
  }

  /** deriveSingleSig. */
  function DeriveSingleSig(lib: Lib, xpub: KeyString, index: uint32, scriptType: string, change: bool, network: string): (r: Result<Address>)
    ensures r.Ok? ==> scriptType in SingleSigTypes
    ensures r.Ok? ==> (OnMainnet(r.value) <==> network == "mainnet") && (OnTestnet(r.value) <==> network != "mainnet")
  {
    var standardXpub := ConvertToStandardXpub(lib, xpub, network);
    var extKey :- ParseExtendedKey(lib, standardXpub);
    var derivedKey :- DeriveChangeThenIndex(lib, extKey, ChangeIndex(change), index);
    SingleSigAddress(lib, derivedKey.publicKey, scriptType, network)
  }

  /** Every step failure surfaces as an error and no address. */
  lemma SingleSigDeriveFailure(lib: Lib, xpub: KeyString, index: uint32, scriptType: string, change: bool, network: string)
    requires ParseExtendedKey(lib, ConvertToStandardXpub(lib, xpub, network)).Ok?
    ensures var key := ParseExtendedKey(lib, ConvertToStandardXpub(lib, xpub, network)).value;
      && (lib.ckd(key, ChangeIndex(change)).None? ==>
            DeriveSingleSig(lib, xpub, index, scriptType, change, network) == Err(DeriveChangeError))
      && (lib.ckd(key, ChangeIndex(change)).Some? && lib.ckd(lib.ckd(key, ChangeIndex(change)).value, index).None? ==>
            DeriveSingleSig(lib, xpub, index, scriptType, change, network) == Err(DeriveIndexError))
  {
  }

  // ---- txscript.ScriptBuilder ----

  const MaxScriptSize := 10000
  const OP_CHECKMULTISIG: byte := 0xAE

  /** The builder's script so far and whether an earlier push failed. */
  datatype Builder = Builder(script: Bytes, failed: bool)

  /** AddInt64: OP_0 for 0, OP_1NEGATE and OP_1..OP_16 for -1 and 1..16,
      otherwise a data push of the script-number encoding. */
  function AddInt64Step(lib: Lib, b: Builder, v: int): Builder {
    if b.failed then b
    else if |b.script| + 1 > MaxScriptSize then Builder(b.script, true)
    else if v == 0 then Builder(b.script + [0x00], false)
    else if v == -1 || 1 <= v <= 16 then Builder(b.script + [0x50 + v], false)
    else if |b.script| + |lib.scriptNumPush(v)| > MaxScriptSize then Builder(b.script, true)
    else Builder(b.script + lib.scriptNumPush(v), false)
  }

  /** AddData of a 33-byte key: OP_DATA_33 followed by the key. */
  function AddDataStep(b: Builder, pk: PubKey): Builder {
    if b.failed then b
    else if |b.script| + 1 + |pk| > MaxScriptSize then Builder(b.script, true)
    else Builder(b.script + [|pk| as byte] + pk, false)
  }

  function AddOpStep(b: Builder, op: byte): Builder {
    if b.failed then b
    else if |b.script| + 1 > MaxScriptSize then Builder(b.script, true)
    else Builder(b.script + [op], false)
  }

  /** AddData for each key in turn. */
  function AddDataAll(b: Builder, keys: seq<PubKey>): Builder {
    if keys == [] then b else AddDataStep(AddDataAll(b, keys[..|keys| - 1]), keys[|keys| - 1])
  }

  /** Script(): the script, or the error of the first push that failed. */
  function Finish(b: Builder): Result<Bytes> {
    if b.failed then Err(ScriptBuildError) else Ok(b.script)
  }

  class ScriptBuilder {
    var script: Bytes
    var failed: bool

    function State(): Builder
      reads this
    {
      Builder(script, failed)
    }

    constructor ()
      ensures State() == Builder([], false)
    {
      script := [];
      failed := false;
    }

    method AddInt64(lib: Lib, v: int)
      modifies this
      ensures State() == AddInt64Step(lib, old(State()), v)
    {
      if failed {
        return;
      }
      if |script| + 1 > MaxScriptSize {
        failed := true;
        return;
      }
      if v == 0 {
        script := script + [0x00];
      } else if v == -1 || 1 <= v <= 16 {
        script := script + [0x50 + v];
      } else {
        var push := lib.scriptNumPush(v);
        if |script| + |push| > MaxScriptSize {
          failed := true;
        } else {
          script := script + push;
        }
      }
    }

    method AddData(pk: PubKey)
      modifies this
      ensures State() == AddDataStep(old(State()), pk)
    {
      if failed {
        return;
      }
      if |script| + 1 + |pk| > MaxScriptSize {
        failed := true;
        return;
      }
      script := script + [|pk| as byte] + pk;
    }

    method AddOp(op: byte)
      modifies this
      ensures State() == AddOpStep(old(State()), op)
    {
      if failed {
        return;
      }
      if |script| + 1 > MaxScriptSize {
        failed := true;
        return;
      }
      script := script + [op];
    }

    method Script() returns (r: Result<Bytes>)
      ensures r == Finish(State())
    {
      if failed {
        r := Err(ScriptBuildError);
      } else {
        r := Ok(script);
      }
    }
  }

  /** A failed builder stays failed and keeps its script. */
  lemma {:induction false} AddDataAllFailed(b: Builder, keys: seq<PubKey>)
    requires b.failed
    ensures AddDataAll(b, keys) == b
  {
    if keys != [] {
      AddDataAllFailed(b, keys[..|keys| - 1]);
    }
  }

  /** Pushing n keys succeeds exactly when the 34 * n bytes fit, and then
      appends their pushes in order. */
  lemma {:induction false} AddDataAllEffect(b: Builder, keys: seq<PubKey>)
    requires !b.failed && |b.script| <= MaxScriptSize
    ensures AddDataAll(b, keys).failed <==> |b.script| + 34 * |keys| > MaxScriptSize
    ensures !AddDataAll(b, keys).failed ==> AddDataAll(b, keys).script == b.script + KeyPushes(keys)
  {
    if keys != [] {
      var n := |keys| - 1;
      AddDataAllEffect(b, keys[..n]);
      var mid := AddDataAll(b, keys[..n]);
      assert AddDataAll(b, keys) == AddDataStep(mid, keys[n]);
      if !mid.failed {
        assert |mid.script| == |b.script| + 34 * n;
        KeyPushesSnoc(keys, n);
        assert keys[..n + 1] == keys;
      }
    }
  }

  /** Keys whose pushes cannot fit leave the builder failed. */
  lemma AddDataAllOverflow(b: Builder, keys: seq<PubKey>)
    requires |b.script| <= MaxScriptSize
    ensures 34 * |keys| > MaxScriptSize ==> AddDataAll(b, keys).failed
  {
    if b.failed {
      AddDataAllFailed(b, keys);
    } else {
      AddDataAllEffect(b, keys);
    }
  }

  /** The opcode of a small integer push. */
  function SmallIntOp(v: int): (op: byte)
    requires -1 <= v <= 16
  {
    if v == 0 then 0x00 else 0x50 + v
  }

  /** builder.AddInt64(threshold); AddData per key; AddInt64(n); AddOp(OP_CHECKMULTISIG). */
  function RedeemScript(lib: Lib, threshold: int, keys: seq<PubKey>): (r: Result<Bytes>)
    ensures r.Err? ==> r.error == ScriptBuildError
    ensures r.Ok? ==> 0 < |r.value| <= MaxScriptSize && r.value[|r.value| - 1] == OP_CHECKMULTISIG
    ensures 34 * |keys| > MaxScriptSize ==> r == Err(ScriptBuildError)
  {
    var withThreshold := AddInt64Step(lib, Builder([], false), threshold);
    AddDataAllOverflow(withThreshold, keys);
    var withKeys := AddDataAll(withThreshold, keys);
    var withCount := AddInt64Step(lib, withKeys, |keys|);
    Finish(AddOpStep(withCount, OP_CHECKMULTISIG))
  }

  /** For a small threshold and at most 16 keys the script is OP_m, the key
      pushes in order, OP_n and OP_CHECKMULTISIG. */
  lemma RedeemScriptSmall(lib: Lib, threshold: int, keys: seq<PubKey>)
    requires -1 <= threshold <= 16 && |keys| <= 16
    ensures RedeemScript(lib, threshold, keys) ==
      Ok([SmallIntOp(threshold)] + KeyPushes(keys) + [SmallIntOp(|keys|), OP_CHECKMULTISIG])
  {
    var withKeys := AddDataAll(AddInt64Step(lib, Builder([], false), threshold), keys);
    KeysAfterSmallThreshold(lib, threshold, keys);
    FinishSmall(lib, withKeys, |keys|);
  }

  /** OP_m, then the key pushes, on a fresh builder. */
  lemma KeysAfterSmallThreshold(lib: Lib, threshold: int, keys: seq<PubKey>)
    requires -1 <= threshold <= 16 && |keys| <= 16
    ensures AddDataAll(AddInt64Step(lib, Builder([], false), threshold), keys) ==
      Builder([SmallIntOp(threshold)] + KeyPushes(keys), false)
  {
    var b0 := AddInt64Step(lib, Builder([], false), threshold);
    SmallIntStep(lib, Builder([], false), threshold);
    assert b0 == Builder([SmallIntOp(threshold)], false);
    assert |b0.script| + 34 * |keys| <= MaxScriptSize;
    AddDataAllEffect(b0, keys);
  }

  /** The last two builder calls on a small count: OP_n, then OP_CHECKMULTISIG. */
  lemma FinishSmall(lib: Lib, b: Builder, n: int)
    requires !b.failed && -1 <= n <= 16 && |b.script| + 2 <= MaxScriptSize
    ensures Finish(AddOpStep(AddInt64Step(lib, b, n), OP_CHECKMULTISIG)) ==
      Ok(b.script + [SmallIntOp(n), OP_CHECKMULTISIG])
  {
    SmallIntStep(lib, b, n);
    var withCount := AddInt64Step(lib, b, n);
    assert AddOpStep(withCount, OP_CHECKMULTISIG) == Builder(withCount.script + [OP_CHECKMULTISIG], false);
    assert withCount.script + [OP_CHECKMULTISIG] == b.script + [SmallIntOp(n), OP_CHECKMULTISIG];
  }

  /** AddInt64 of a value in -1..16 appends its one-byte opcode. */
  lemma SmallIntStep(lib: Lib, b: Builder, v: int)
    requires !b.failed && -1 <= v <= 16 && |b.script| + 1 <= MaxScriptSize
    ensures AddInt64Step(lib, b, v) == Builder(b.script + [SmallIntOp(v)], false)
  {
  }

  /** The bytes AddInt64 appends for a value. */
  function AddInt64Push(lib: Lib, v: int): Bytes {
    if v == 0 then [0x00] else if v == -1 || 1 <= v <= 16 then [0x50 + v] else lib.scriptNumPush(v)
  }

  /** AddInt64 that leaves the builder healthy started healthy and appended its push. */
  lemma AddInt64StepOk(lib: Lib, b: Builder, v: int)
    requires !AddInt64Step(lib, b, v).failed
    ensures !b.failed && AddInt64Step(lib, b, v).script == b.script + AddInt64Push(lib, v)
  {
  }

  /** Whatever the threshold and key count, a script Script() returns is the
      threshold push, the key pushes in order, the count push and
      OP_CHECKMULTISIG. */
  lemma RedeemScriptPushes(lib: Lib, threshold: int, keys: seq<PubKey>)
    requires RedeemScript(lib, threshold, keys).Ok?
    ensures RedeemScript(lib, threshold, keys).value ==
      AddInt64Push(lib, threshold) + KeyPushes(keys) + AddInt64Push(lib, |keys|) + [OP_CHECKMULTISIG]
  {
    var withThreshold := AddInt64Step(lib, Builder([], false), threshold);
    var withKeys := AddDataAll(withThreshold, keys);
    assert RedeemScript(lib, threshold, keys) ==
      Finish(AddOpStep(AddInt64Step(lib, withKeys, |keys|), OP_CHECKMULTISIG));
    FinishOk(lib, withKeys, |keys|);
    AddInt64StepBounded(lib, Builder([], false), threshold);
    KeysOk(withThreshold, keys);
    AddInt64StepOk(lib, Builder([], false), threshold);
    var t, k, n := AddInt64Push(lib, threshold), KeyPushes(keys), AddInt64Push(lib, |keys|);
    assert withThreshold.script == t;
    assert withKeys.script == t + k;
    assert (t + k) + n + [OP_CHECKMULTISIG] == t + k + n + [OP_CHECKMULTISIG];
  }

  /** A push never grows the script past MaxScriptSize. */
  lemma AddInt64StepBounded(lib: Lib, b: Builder, v: int)
    requires |b.script| <= MaxScriptSize
    ensures |AddInt64Step(lib, b, v).script| <= MaxScriptSize
  {
  }

  /** A successful Script() after the count push and OP_CHECKMULTISIG. */
  lemma FinishOk(lib: Lib, b: Builder, n: int)
    requires Finish(AddOpStep(AddInt64Step(lib, b, n), OP_CHECKMULTISIG)).Ok?
    ensures !b.failed
    ensures Finish(AddOpStep(AddInt64Step(lib, b, n), OP_CHECKMULTISIG)).value ==
      b.script + AddInt64Push(lib, n) + [OP_CHECKMULTISIG]
  {
    AddInt64StepOk(lib, b, n);
  }

  /** Key pushes that leave the builder healthy started from a healthy builder
      and appended exactly the key pushes. */
  lemma KeysOk(b: Builder, keys: seq<PubKey>)
    requires |b.script| <= MaxScriptSize && !AddDataAll(b, keys).failed
    ensures !b.failed && AddDataAll(b, keys).script == b.script + KeyPushes(keys)
  {
    if b.failed {
      AddDataAllFailed(b, keys);
    }
    AddDataAllEffect(b, keys);
  }

  /** Too many keys for MaxScriptSize: Script() reports the error. */
  lemma RedeemScriptTooLarge(lib: Lib, threshold: int, keys: seq<PubKey>)
    requires -1 <= threshold <= 16 && 1 + 34 * |keys| > MaxScriptSize
    ensures RedeemScript(lib, threshold, keys) == Err(ScriptBuildError)
  {
    var withThreshold := AddInt64Step(lib, Builder([], false), threshold);
    AddDataAllEffect(withThreshold, keys);
  }

  /** The builder calls of deriveMultisig on a fresh ScriptBuilder. */
  method BuildRedeemScript(lib: Lib, threshold: int, pubKeys: seq<PubKey>) returns (r: Result<Bytes>)
    ensures r == RedeemScript(lib, threshold, pubKeys)
  {
    var builder := new ScriptBuilder();
    builder.AddInt64(lib, threshold);
    ghost var start := builder.State();
    for j := 0 to |pubKeys|
      invariant builder.State() == AddDataAll(start, pubKeys[..j])
    {
      assert pubKeys[..j + 1][..j] == pubKeys[..j];
      builder.AddData(pubKeys[j]);
    }
    assert pubKeys[..|pubKeys|] == pubKeys;
    builder.AddInt64(lib, |pubKeys|);
    builder.AddOp(OP_CHECKMULTISIG);
    r := builder.Script();
  }

  /** make([]byte, 34), the two opcode bytes, then copy of the script hash. */
  method WitnessProgram(witnessHash: Digest32) returns (witnessProgram: array<byte>)
    ensures fresh(witnessProgram)
    ensures witnessProgram[..] == P2WSHProgram(witnessHash)
  {
    witnessProgram := new byte[34](_ => 0);
    witnessProgram[0] := 0x00;
    witnessProgram[1] := 0x20;
    for k := 0 to 32
      invariant witnessProgram[0] == 0x00 && witnessProgram[1] == 0x20
      invariant forall m :: 0 <= m < k ==> witnessProgram[2 + m] == witnessHash[m]
    {
      witnessProgram[2 + k] := witnessHash[k];
    }
    assert witnessProgram[..] == [0x00, 0x20] + witnessHash;
  }

  // ---- multisig ----

  /** One cosigner: normalise, parse, derive change then index. */
  function CosignerKey(lib: Lib, xpub: KeyString, network: string, changeIdx: uint32, index: uint32): (r: Result<PubKey>)
    ensures r.Err? ==> r.error == ParseError || r.error == DeriveChangeError || r.error == DeriveIndexError
    ensures r.Ok? <==> (ParseExtendedKey(lib, ConvertToStandardXpub(lib, xpub, network)).Ok? &&
      DeriveChangeThenIndex(lib, ParseExtendedKey(lib, ConvertToStandardXpub(lib, xpub, network)).value, changeIdx, index).Ok?)
    ensures r.Ok? ==> var key := ParseExtendedKey(lib, ConvertToStandardXpub(lib, xpub, network)).value;
      && lib.ckd(key, changeIdx).Some? && lib.ckd(lib.ckd(key, changeIdx).value, index).Some?
      && r.value == lib.ckd(lib.ckd(key, changeIdx).value, index).value.publicKey
  {
    var standardXpub := ConvertToStandardXpub(lib, xpub, network);
    var extKey :- ParseExtendedKey(lib, standardXpub);
    var derivedKey :- DeriveChangeThenIndex(lib, extKey, changeIdx, index);
    Ok(derivedKey.publicKey)
  }

  function Cosigner(lib: Lib, network: string, changeIdx: uint32, index: uint32): KeyString -> Result<PubKey> {
    xpub => CosignerKey(lib, xpub, network, changeIdx, index)
  }

  /** deriveMultisig as a function of its inputs. */
  function Multisig(lib: Lib, xpubs: seq<KeyString>, threshold: int, index: uint32,
                    scriptType: string, change: bool, network: string): (r: Result<Address>)
    ensures r.Ok? ==> scriptType in MultisigTypes && 34 * |xpubs| <= MaxScriptSize
    ensures r.Ok? ==> (OnMainnet(r.value) <==> network == "mainnet") && (OnTestnet(r.value) <==> network != "mainnet")
    ensures r.Ok? ==> forall i :: 0 <= i < |xpubs| ==>
      CosignerKey(lib, xpubs[i], network, ChangeIndex(change), index).Ok?
  {
    var keys :- Collect(MapSeq(Cosigner(lib, network, ChangeIndex(change), index), xpubs));
    AddressFromKeys(lib, keys, threshold, scriptType, network)
  }

  /** From the collected keys on: sort, script builder, hash chain. */
  function AddressFromKeys(lib: Lib, keys: seq<PubKey>, threshold: int, scriptType: string, network: string): (r: Result<Address>)
    ensures r.Ok? <==> RedeemScript(lib, threshold, SortKeys(keys)).Ok? && scriptType in MultisigTypes
    ensures r.Ok? ==> 34 * |keys| <= MaxScriptSize
    ensures r.Ok? ==> (OnMainnet(r.value) <==> network == "mainnet") && (OnTestnet(r.value) <==> network != "mainnet")
  {
    assert |SortKeys(keys)| == |multiset(SortKeys(keys))| == |keys|;
    var script :- RedeemScript(lib, threshold, SortKeys(keys));
    MultisigAddress(lib, script, scriptType, network == "mainnet")
  }

  /** Single-sig derivation and a multisig cosigner go through the same
      normalisation, parsing and two Derive calls. */
  lemma SingleSigUsesCosignerKey(lib: Lib, xpub: KeyString, index: uint32, scriptType: string, change: bool, network: string)
    ensures DeriveSingleSig(lib, xpub, index, scriptType, change, network) ==
      match CosignerKey(lib, xpub, network, ChangeIndex(change), index)
      case Err(e) => Err(e)
      case Ok(pk) => SingleSigAddress(lib, pk, scriptType, network)
  {
  }

  /** The key-collection loop: append each derived key, or return at the
      first cosigner that fails. */
  method CollectCosignerKeys(lib: Lib, xpubs: seq<KeyString>, network: string, changeIdx: uint32, index: uint32)
    returns (r: Result<seq<PubKey>>)
    ensures r == Collect(MapSeq(Cosigner(lib, network, changeIdx, index), xpubs))
  {
    ghost var f := Cosigner(lib, network, changeIdx, index);
    var pubKeys: seq<PubKey> := [];
    for i := 0 to |xpubs|
      invariant Collect(MapSeq(f, xpubs[..i])) == Ok(pubKeys)
    {
      var pubKey := CosignerKey(lib, xpubs[i], network, changeIdx, index);
      if pubKey.Err? {
        CollectStopsAt(f, xpubs, i);
        return Err(pubKey.error);
      }
      CollectStepOk(f, xpubs, i, pubKeys);
      pubKeys := pubKeys + [pubKey.value];
    }
    assert xpubs[..|xpubs|] == xpubs;
    r := Ok(pubKeys);
  }

  /** deriveMultisig: keys, BIP 67 sort, script builder, then the hash chain
      of the script type, with the P2WSH program in a 34-byte buffer. */
  method DeriveMultisig(lib: Lib, xpubs: seq<KeyString>, threshold: int, index: uint32,
                        scriptType: string, change: bool, network: string) returns (r: Result<Address>)
    ensures r == Multisig(lib, xpubs, threshold, index, scriptType, change, network)
  {
    var net := GetNetwork(network);
    var collected := CollectCosignerKeys(lib, xpubs, network, ChangeIndex(change), index);
    if collected.Err? {
      return Err(collected.error);
    }
    var pubKeys := SortKeys(collected.value);
    var built := BuildRedeemScript(lib, threshold, pubKeys);
    if built.Err? {
      return Err(built.error);
    }
    var redeemScript := built.value;

    if scriptType == "p2sh" {
      var scriptHash := Hash160(lib, redeemScript);
      r := Ok(Base58Address(net.scriptHashAddrID, scriptHash));
    } else if scriptType == "p2wsh" {
      var witnessHash := lib.sha256(redeemScript);
      r := Ok(SegwitAddress(net.bech32HRP, 0, witnessHash));
    } else if scriptType == "p2sh_p2wsh" {
      var witnessHash := lib.sha256(redeemScript);
      var witnessProgram := WitnessProgram(witnessHash);
      var h := lib.sha256(witnessProgram[..]);
      var scriptHash := lib.ripemd160(h);
      r := Ok(Base58Address(net.scriptHashAddrID, scriptHash));
    } else {
      r := Err(UnknownScriptType(scriptType));
    }
  }

  /** Any one cosigner that fails aborts the call with its error. */
  lemma MultisigCosignerFailure(lib: Lib, xpubs: seq<KeyString>, threshold: int, index: uint32,
                                scriptType: string, change: bool, network: string, i: nat)
    requires FirstFailure(MapSeq(Cosigner(lib, network, ChangeIndex(change), index), xpubs), i)
    ensures Multisig(lib, xpubs, threshold, index, scriptType, change, network) ==
      Err(CosignerKey(lib, xpubs[i], network, ChangeIndex(change), index).error)
  {
    CollectFirstFailure(MapSeq(Cosigner(lib, network, ChangeIndex(change), index), xpubs), i);
  }

  /** Cosigner order does not matter. */
  lemma MultisigOrderInvariant(lib: Lib, xpubs: seq<KeyString>, others: seq<KeyString>, threshold: int, index: uint32,
                               scriptType: string, change: bool, network: string)
    requires multiset(xpubs) == multiset(others)
    ensures Agree(Multisig(lib, xpubs, threshold, index, scriptType, change, network),
                  Multisig(lib, others, threshold, index, scriptType, change, network))
  {
    var f := Cosigner(lib, network, ChangeIndex(change), index);
    MapSeqMultiset(f, xpubs, others);
    CollectPermutation(MapSeq(f, xpubs), MapSeq(f, others));
    var a, b := Collect(MapSeq(f, xpubs)), Collect(MapSeq(f, others));
    if a.Ok? {
      SortKeysOrderInvariant(a.value, b.value);
      assert AddressFromKeys(lib, a.value, threshold, scriptType, network) ==
             AddressFromKeys(lib, b.value, threshold, scriptType, network);
    }
  }
}
