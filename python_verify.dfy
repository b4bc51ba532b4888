/** The address derivation of python-verify.py (bip_utils).  Single-sig
    derivation is pure branching and is written as functions; multisig
    derivation builds its key list and redeem script in loops and is written
    as a method proved against the function `Multisig`. */
module PyVerify {
  import opened Wrappers
  import opened Crypto
  import opened Bitcoin
  import opened Bip67
  import opened Cosigners
  import opened DerivationPath

  /** Single-sig is_mainnet: decided by the key's prefix alone. */
  predicate PrefixIsMainnet(prefix: string)
    ensures PrefixIsMainnet(prefix) ==> |prefix| == 4 && prefix[1..] == "pub"
    ensures IsCanonicalPrefix(prefix) ==> (PrefixIsMainnet(prefix) <==> prefix == "xpub")
  {
    prefix in ["xpub", "ypub", "zpub", "Ypub", "Zpub"]
  }

  /** converted = new_version + decoded[4:] */
  function ConvertPayload(decoded: Bytes, isMainnet: bool): (p: Bytes)
    ensures |p| == if |decoded| < 4 then 4 else |decoded|
    ensures p[..4] == ExtKeyVersion(isMainnet)
    ensures |decoded| >= 4 ==> p[4..] == decoded[4..]
  {
    var newVersion := if isMainnet then [0x04, 0x88, 0xB2, 0x1E] else [0x04, 0x35, 0x87, 0xCF];
    newVersion + (if |decoded| < 4 then [] else decoded[4..])
  }

  /** Rewrites the version bytes of a key whose prefix is not xpub or tpub;
      the network is the caller's choice. */
  function Normalize(lib: Lib, xpub: string, isMainnet: bool): (r: Result<string>)
    ensures IsCanonicalPrefix(Prefix(xpub)) ==> r == Ok(xpub)
    ensures !IsCanonicalPrefix(Prefix(xpub)) ==> r.Ok? == CheckDecode(lib, xpub).Ok?
    ensures r.Err? ==> r.error == DecodeError
  {
    if IsCanonicalPrefix(Prefix(xpub)) then Ok(xpub)
    else
      var decoded :- CheckDecode(lib, xpub);
      Ok(CheckEncode(lib, ConvertPayload(decoded, isMainnet)))
  }

  /** The re-encoded key carries the canonical version followed by every
      decoded byte after offset 4, and nothing else. */
  lemma NormalizedPayload(lib: Lib, xpub: string, isMainnet: bool, decoded: Bytes)
    requires RawRoundTrip(lib)
    requires !IsCanonicalPrefix(Prefix(xpub))
    requires CheckDecode(lib, xpub) == Ok(decoded) && |decoded| >= 4
    ensures Normalize(lib, xpub, isMainnet).Ok?
    ensures CheckDecode(lib, Normalize(lib, xpub, isMainnet).value) == Ok(ExtKeyVersion(isMainnet) + decoded[4..])
  {
    var p := ConvertPayload(decoded, isMainnet);
    CheckRoundTrip(lib, p);
    assert p == p[..4] + p[4..];
  }

  /** Public derivation along a list of child indices, one CKD step each. */
  function DeriveSteps(lib: Lib, key: ExtKey, path: seq<uint32>): (r: Result<ExtKey>)
    decreases |path|
    ensures r.Err? ==> r.error == DeriveError
    ensures |path| == 1 ==> r == match lib.ckd(key, path[0]) case None => Err(DeriveError) case Some(child) => Ok(child)
  {
    if path == [] then Ok(key)
    else
      match lib.ckd(key, path[0])
      case None => Err(DeriveError)
      case Some(child) => DeriveSteps(lib, child, path[1..])
  }

  /** bip_utils DerivePath on a path string. */
  function DerivePath(lib: Lib, key: ExtKey, path: string): (r: Result<ExtKey>)
    ensures r.Err? ==> r.error == DeriveError
    ensures ParsePath(path).None? ==> r == Err(DeriveError)
    ensures ParsePath(path) == Some([]) ==> r == Ok(key)
    ensures path == "" ==> r == Ok(key)
  {
    EmptyPathHasNoSteps();
    match ParsePath(path)
    case None => Err(DeriveError)
    case Some(indices) => DeriveSteps(lib, key, indices)
  }

  /** Deriving along "{c}/{index}" is the step c followed by the index
      step, and fails for an index that is negative or not below 2^32. */
  lemma DerivePathTwoSteps(lib: Lib, key: ExtKey, c: uint32, index: int)
    ensures var r := DerivePath(lib, key, PathString(c, index));
      && (!(0 <= index < 0x1_0000_0000) ==> r == Err(DeriveError))
      && (0 <= index < 0x1_0000_0000 ==>
            r == match lib.ckd(key, c)
                 case None => Err(DeriveError)
                 case Some(child) =>
                   match lib.ckd(child, index)
                   case None => Err(DeriveError)
                   case Some(grandchild) => Ok(grandchild))
  {
    PathStringParses(c, index);
    if 0 <= index < 0x1_0000_0000 {
      var path: seq<uint32> := [c, index];
      assert path[1..] == [index] && path[1..][1..] == [];
      match lib.ckd(key, c)
      case None =>
      case Some(child) =>
        assert DeriveSteps(lib, key, path) == DeriveSteps(lib, child, [index]);
        match lib.ckd(child, index)
        case None =>
        case Some(grandchild) =>
          assert DeriveSteps(lib, child, [index]) == DeriveSteps(lib, grandchild, []);
    }
  }

  /** The script-type branch of derive_single_sig_bip_utils. */
  function SingleSigAddress(lib: Lib, pk: PubKey, scriptType: string, isMainnet: bool): (r: Result<Address>)
    ensures r.Ok? <==> scriptType in SingleSigTypes
    ensures r.Err? ==> r.error == UnknownScriptType(scriptType)
    ensures r.Ok? ==> (OnMainnet(r.value) <==> isMainnet) && (OnTestnet(r.value) <==> !isMainnet)
    ensures scriptType == "legacy" ==>
      r == Ok(Base58Address(if isMainnet then 0x00 else 0x6F, Hash160(lib, pk)))
    ensures scriptType == "nested_segwit" ==>
      r == Ok(Base58Address(if isMainnet then 0x05 else 0xC4, Hash160(lib, P2WPKHProgram(Hash160(lib, pk)))))
    ensures scriptType == "native_segwit" ==>
      r == Ok(SegwitAddress(if isMainnet then "bc" else "tb", 0, Hash160(lib, pk)))
    ensures scriptType == "taproot" ==>
      r == Ok(SegwitAddress(if isMainnet then "bc" else "tb", 1, pk[1..33]))
  {
    var conf := if isMainnet then MainNetParams else TestNet3Params;
    if scriptType == "legacy" then Ok(PayToPubKeyHash(lib, conf, pk))
    else if scriptType == "nested_segwit" then Ok(PayToNestedWitnessPubKeyHash(lib, conf, pk))
    else if scriptType == "native_segwit" then Ok(PayToWitnessPubKeyHash(lib, conf, pk))
    else if scriptType == "taproot" then Ok(PayToTaproot(conf, pk))
    else Err(UnknownScriptType(scriptType))
  }

  /** derive_single_sig_bip_utils.  The network argument is not consulted. */
  function DeriveSingleSig(lib: Lib, xpub: string, index: int, scriptType: string, change: bool, network: string): (r: Result<Address>)
    ensures r.Ok? ==> scriptType in SingleSigTypes && 0 <= index < 0x1_0000_0000
    ensures r.Ok? ==> (OnMainnet(r.value) <==> PrefixIsMainnet(Prefix(xpub)))
    ensures r.Ok? ==> (OnTestnet(r.value) <==> !PrefixIsMainnet(Prefix(xpub)))
  {
    var isMainnet := PrefixIsMainnet(Prefix(xpub));
    var standard :- Normalize(lib, xpub, isMainnet);
    var key :- ParseExtendedKey(lib, standard);
    var derived :- DerivePath(lib, key, PathString(ChangeIndex(change), index));
    DerivePathTwoSteps(lib, key, ChangeIndex(change), index);
    SingleSigAddress(lib, derived.publicKey, scriptType, isMainnet)
  }

  /** Single-sig derivation ignores its network argument. */
  lemma SingleSigIgnoresNetwork(lib: Lib, xpub: string, index: int, scriptType: string, change: bool, n1: string, n2: string)
    ensures DeriveSingleSig(lib, xpub, index, scriptType, change, n1) == DeriveSingleSig(lib, xpub, index, scriptType, change, n2)
  {
  }

  /** The key hash a legacy address carries is the one the nested-segwit
      program commits to. */
  lemma LegacyHashInNestedSegwit(lib: Lib, pk: PubKey, isMainnet: bool)
    ensures SingleSigAddress(lib, pk, "nested_segwit", isMainnet).value.hash ==
      Hash160(lib, P2WPKHProgram(SingleSigAddress(lib, pk, "legacy", isMainnet).value.hash))
  {
  }

  // ---- multisig ----

  /** One cosigner: normalise with the network argument, parse, derive. */
  function CosignerKey(lib: Lib, xpub: string, isMainnet: bool, changeIdx: uint32, index: int): (r: Result<PubKey>)
    ensures r.Err? ==> r.error == DecodeError || r.error == ParseError || r.error == DeriveError
    ensures r.Ok? ==> Normalize(lib, xpub, isMainnet).Ok? && ParseExtendedKey(lib, Normalize(lib, xpub, isMainnet).value).Ok?
    ensures r.Ok? ==> 0 <= index < 0x1_0000_0000
    ensures r.Ok? <==>
      && Normalize(lib, xpub, isMainnet).Ok?
      && ParseExtendedKey(lib, Normalize(lib, xpub, isMainnet).value).Ok?
      && 0 <= index < 0x1_0000_0000
      && var key := ParseExtendedKey(lib, Normalize(lib, xpub, isMainnet).value).value;
         lib.ckd(key, changeIdx).Some? && lib.ckd(lib.ckd(key, changeIdx).value, index).Some?
    ensures r.Ok? ==> var key := ParseExtendedKey(lib, Normalize(lib, xpub, isMainnet).value).value;
      && lib.ckd(key, changeIdx).Some? && lib.ckd(lib.ckd(key, changeIdx).value, index).Some?
      && r.value == lib.ckd(lib.ckd(key, changeIdx).value, index).value.publicKey
  {
    var standard :- Normalize(lib, xpub, isMainnet);
    var key :- ParseExtendedKey(lib, standard);
    DerivePathTwoSteps(lib, key, changeIdx, index);
    var derived :- DerivePath(lib, key, PathString(changeIdx, index));
    Ok(derived.publicKey)
  }

  /** Single-sig derivation is a cosigner derivation whose network is read
      off the key's prefix, followed by the script-type dispatch. */
  lemma SingleSigUsesCosignerKey(lib: Lib, xpub: string, index: int, scriptType: string, change: bool, network: string)
    ensures var isMainnet := PrefixIsMainnet(Prefix(xpub));
      DeriveSingleSig(lib, xpub, index, scriptType, change, network) ==
        match CosignerKey(lib, xpub, isMainnet, ChangeIndex(change), index)
        case Err(e) => Err(e)
        case Ok(pk) => SingleSigAddress(lib, pk, scriptType, isMainnet)
  {
  }

  function Cosigner(lib: Lib, isMainnet: bool, changeIdx: uint32, index: int): string -> Result<PubKey> {
    xpub => CosignerKey(lib, xpub, isMainnet, changeIdx, index)
  }

  /** OP_M (len || pk)* OP_N OP_CHECKMULTISIG; bytes([x]) raises unless 0 <= x < 256. */
  function RedeemScript(threshold: int, keys: seq<PubKey>): (r: Result<Bytes>)
    ensures r.Ok? <==> 0 <= 0x50 + threshold < 256 && 0x50 + |keys| < 256
    ensures r.Err? ==> r.error == ByteRangeError
    ensures r.Ok? ==> |r.value| == 3 + 34 * |keys|
    ensures r.Ok? ==> r.value[0] == 0x50 + threshold && r.value[|r.value| - 1] == 0xAE
    ensures r.Ok? ==> r.value[|r.value| - 2] == 0x50 + |keys| && r.value[1..|r.value| - 2] == KeyPushes(keys)
  {
    if !(0 <= 0x50 + threshold < 256) then Err(ByteRangeError)
    else if !(0x50 + |keys| < 256) then Err(ByteRangeError)
    else
      var s := [0x50 + threshold] + KeyPushes(keys) + [0x50 + |keys|] + [0xAE];
      assert s[1..|s| - 2] == KeyPushes(keys);
      Ok(s)
  }

  /** Where each sorted key sits in the redeem script. */
  lemma RedeemScriptLayout(threshold: int, keys: seq<PubKey>, i: nat)
    requires RedeemScript(threshold, keys).Ok? && i < |keys|
    ensures RedeemScript(threshold, keys).value[1 + 34 * i] == 33
    ensures RedeemScript(threshold, keys).value[2 + 34 * i..35 + 34 * i] == keys[i]
  {
    var s := RedeemScript(threshold, keys).value;
    var pushes := s[1..|s| - 2];
    var o := 34 * i;
    KeyPushesLayout(keys, i);
    assert o + 34 <= |pushes|;
    assert pushes[o] == s[1 + o];
    assert s[o + 2..o + 35] == pushes[o + 1..o + 34];
  }

  /** derive_multisig_bip_utils as a function of its inputs. */
  function Multisig(lib: Lib, xpubs: seq<string>, threshold: int, index: int,
                    scriptType: string, change: bool, network: string): (r: Result<Address>)
    ensures r.Ok? ==> scriptType in MultisigTypes
    ensures r.Ok? ==> 0 <= 0x50 + threshold < 256 && 0x50 + |xpubs| < 256
    ensures r.Ok? ==> (OnMainnet(r.value) <==> network == "mainnet") && (OnTestnet(r.value) <==> network != "mainnet")
    ensures r.Ok? ==> forall i :: 0 <= i < |xpubs| ==>
      CosignerKey(lib, xpubs[i], network == "mainnet", ChangeIndex(change), index).Ok?
  {
    var isMainnet := network == "mainnet";
    var keys :- Collect(MapSeq(Cosigner(lib, isMainnet, ChangeIndex(change), index), xpubs));
    AddressFromKeys(lib, keys, threshold, scriptType, isMainnet)
  }

  /** From the collected keys on: sort, redeem script, hash chain. */
  function AddressFromKeys(lib: Lib, keys: seq<PubKey>, threshold: int, scriptType: string, isMainnet: bool): (r: Result<Address>)
    ensures r.Ok? <==> 0 <= 0x50 + threshold < 256 && 0x50 + |keys| < 256 && scriptType in MultisigTypes
    ensures r.Ok? ==> (OnMainnet(r.value) <==> isMainnet) && (OnTestnet(r.value) <==> !isMainnet)
  {
    assert |SortKeys(keys)| == |multiset(SortKeys(keys))| == |keys|;
    var script :- RedeemScript(threshold, SortKeys(keys));
    MultisigAddress(lib, script, scriptType, isMainnet)
  }

  /** The cosigner loop of derive_multisig_bip_utils: derive each key in
      turn, stopping at the first failure. */
  method CollectCosignerKeys(lib: Lib, xpubs: seq<string>, isMainnet: bool, changeIdx: uint32, index: int)
    returns (r: Result<seq<PubKey>>)
    ensures r == Collect(MapSeq(Cosigner(lib, isMainnet, changeIdx, index), xpubs))
  {
    ghost var f := Cosigner(lib, isMainnet, changeIdx, index);
    var pubKeys: seq<PubKey> := [];
    for i := 0 to |xpubs|
      invariant Collect(MapSeq(f, xpubs[..i])) == Ok(pubKeys)
    {
      var pubKey := CosignerKey(lib, xpubs[i], isMainnet, changeIdx, index);
      if pubKey.Err? {
        CollectStopsAt(f, xpubs, i);
        return Err(pubKey.error);
      }
      CollectStepOk(f, xpubs, i, pubKeys);
      pubKeys := pubKeys + [pubKey.value];
    }
    assert xpubs[..|xpubs|] == xpubs;
    r := Ok(pubKeys);
  }

  /** The redeem-script loop: OP_M, one push per key, OP_N, OP_CHECKMULTISIG. */
  method BuildRedeemScript(threshold: int, pubKeys: seq<PubKey>) returns (r: Result<Bytes>)
    ensures r == RedeemScript(threshold, pubKeys)
  {
    if !(0 <= 0x50 + threshold < 256) {
      return Err(ByteRangeError);
    }
    var redeemScript: Bytes := [0x50 + threshold];
    for j := 0 to |pubKeys|
      invariant redeemScript == [0x50 + threshold] + KeyPushes(pubKeys[..j])
    {
      KeyPushesSnoc(pubKeys, j);
      redeemScript := redeemScript + [|pubKeys[j]|] + pubKeys[j];
    }
    assert pubKeys[..|pubKeys|] == pubKeys;
    if !(0x50 + |pubKeys| < 256) {
      return Err(ByteRangeError);
    }
    redeemScript := redeemScript + [0x50 + |pubKeys|];
    redeemScript := redeemScript + [0xAE];
    r := Ok(redeemScript);
  }

  /** derive_multisig_bip_utils: collect the cosigner keys, sort them, build
      the redeem script, then hash it for the script type. */
  method DeriveMultisig(lib: Lib, xpubs: seq<string>, threshold: int, index: int,
                        scriptType: string, change: bool, network: string) returns (r: Result<Address>)
    ensures r == Multisig(lib, xpubs, threshold, index, scriptType, change, network)
  {
    var isMainnet := network == "mainnet";
    var collected := CollectCosignerKeys(lib, xpubs, isMainnet, ChangeIndex(change), index);
    if collected.Err? {
      return Err(collected.error);
    }
    var pubKeys := SortKeys(collected.value);
    var built := BuildRedeemScript(threshold, pubKeys);
    if built.Err? {
      return Err(built.error);
    }
    var redeemScript := built.value;

    var scriptHash := lib.sha256(redeemScript);
    var scriptHash160 := lib.ripemd160(scriptHash);
    if scriptType == "p2sh" {
      r := Ok(Base58Address(if isMainnet then 0x05 else 0xC4, scriptHash160));
    } else if scriptType == "p2wsh" {
      r := Ok(SegwitAddress(if isMainnet then "bc" else "tb", 0, scriptHash));
    } else if scriptType == "p2sh_p2wsh" {
      var witnessProgram := [0x00, 0x20] + scriptHash;
      var wpHash := lib.ripemd160(lib.sha256(witnessProgram));
      r := Ok(Base58Address(if isMainnet then 0x05 else 0xC4, wpHash));
    } else {
      r := Err(UnknownScriptType(scriptType));
    }
  }

  /** Any one cosigner that fails stops the derivation with its error. */
  lemma MultisigCosignerFailure(lib: Lib, xpubs: seq<string>, threshold: int, index: int,
                                scriptType: string, change: bool, network: string, i: nat)
    requires FirstFailure(MapSeq(Cosigner(lib, network == "mainnet", ChangeIndex(change), index), xpubs), i)
    ensures Multisig(lib, xpubs, threshold, index, scriptType, change, network) ==
      Err(CosignerKey(lib, xpubs[i], network == "mainnet", ChangeIndex(change), index).error)
  {
    CollectFirstFailure(MapSeq(Cosigner(lib, network == "mainnet", ChangeIndex(change), index), xpubs), i);
  }

  /** Cosigner order does not matter: any permutation of the xpubs gives the
      same address, or fails as well. */
  lemma MultisigOrderInvariant(lib: Lib, xpubs: seq<string>, others: seq<string>, threshold: int, index: int,
                               scriptType: string, change: bool, network: string)
    requires multiset(xpubs) == multiset(others)
    ensures Agree(Multisig(lib, xpubs, threshold, index, scriptType, change, network),
                  Multisig(lib, others, threshold, index, scriptType, change, network))
  {
    var f := Cosigner(lib, network == "mainnet", ChangeIndex(change), index);
    MapSeqMultiset(f, xpubs, others);
    CollectPermutation(MapSeq(f, xpubs), MapSeq(f, others));
    var a, b := Collect(MapSeq(f, xpubs)), Collect(MapSeq(f, others));
    if a.Ok? {
      SortKeysOrderInvariant(a.value, b.value);
    }
  }
}
