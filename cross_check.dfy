/** Where the two implementations agree and where they differ.  Both are
    stated over one `Lib`: the agreement lemmas take bip_utils and
    btcutil/hdkeychain to parse and derive keys identically. */
module CrossCheck {
  import opened Wrappers
  import opened Crypto
  import opened Bitcoin
  import opened Bip67
  import opened Cosigners
  import opened DerivationPath
  import Py = PyVerify
  import Go = GoVerify

  /** Re-encoding a SLIP-132 key: Python frames the 78-byte payload with its
      checksum; Go's base58.CheckEncode(payload, 0) frames a 79-byte payload
      that starts with an extra 0x00.  The two normalised strings differ. */
  lemma NormalisedFramingDiffers(lib: Lib, xpub: Go.KeyString, network: string, payload: Bytes)
    requires RawRoundTrip(lib)
    requires !IsCanonicalPrefix(xpub[..4])
    requires CheckDecode(lib, xpub) == Ok(payload) && |payload| >= 74
    ensures Py.Normalize(lib, xpub, network == "mainnet").Ok?
    ensures var py := Py.Normalize(lib, xpub, network == "mainnet").value;
      var go := Go.ConvertToStandardXpub(lib, xpub, network);
      && CheckDecode(lib, py) == Ok(ExtKeyVersion(network == "mainnet") + payload[4..])
      && CheckDecode(lib, go) == Ok([0x00] + ExtKeyVersion(network == "mainnet") + payload[4..])
      && py != go
  {
    var version := ExtKeyVersion(network == "mainnet");
    var d := GoDecode(lib, xpub);
    assert d == payload + Checksum(lib, payload);
    assert d[4..|d| - 4] == payload[4..];
    assert Prefix(xpub) == xpub[..4];
    Py.NormalizedPayload(lib, xpub, network == "mainnet", payload);
    Go.ConvertedKeyPayload(lib, xpub, network);
  }

  /** With the conversion as intended, Go normalises a well-formed SLIP-132
      key to exactly the string Python produces. */
  lemma IntendedConversionAgrees(lib: Lib, xpub: Go.KeyString, network: string, payload: Bytes)
    requires RawRoundTrip(lib)
    requires !IsCanonicalPrefix(xpub[..4])
    requires CheckDecode(lib, xpub) == Ok(payload) && |payload| >= 74
    ensures Py.Normalize(lib, xpub, network == "mainnet") == Ok(Go.ConvertToStandardXpubIntended(lib, xpub, network))
  {
    var d := GoDecode(lib, xpub);
    assert d == payload + Checksum(lib, payload);
    assert d[4..|d| - 4] == payload[4..];
    assert Prefix(xpub) == xpub[..4];
    var p := Go.ConvertPayload(d, network);
    var q := Py.ConvertPayload(payload, network == "mainnet");
    assert p == p[..4] + p[4..] && q == q[..4] + q[4..];
    assert p == q;
    assert [p[0]] + p[1..] == p;
  }

  /** Python's DerivePath on "{c}/{index}" and Go's two Derive calls reach
      the same key; only the error values differ. */
  lemma DerivationAgrees(lib: Lib, key: ExtKey, change: bool, index: uint32)
    ensures Agree(Py.DerivePath(lib, key, PathString(ChangeIndex(change), index)),
                  Go.DeriveChangeThenIndex(lib, key, ChangeIndex(change), index))
  {
    Py.DerivePathTwoSteps(lib, key, ChangeIndex(change), index);
  }

  /** The single-sig switches of both scripts build the same address. */
  lemma SingleSigDispatchAgrees(lib: Lib, pk: PubKey, scriptType: string, network: string)
    ensures Py.SingleSigAddress(lib, pk, scriptType, network == "mainnet") ==
            Go.SingleSigAddress(lib, pk, scriptType, network)
  {
  }

  /** For an xpub or tpub key and a network argument that names the key's own
      network, both single-sig derivations give the same address or both fail. */
  lemma SingleSigAgrees(lib: Lib, xpub: Go.KeyString, index: uint32, scriptType: string, change: bool,
                        pyNetwork: string, network: string)
    requires IsCanonicalPrefix(xpub[..4])
    requires (network == "mainnet") == (xpub[..4] == "xpub")
    ensures Agree(Py.DeriveSingleSig(lib, xpub, index, scriptType, change, pyNetwork),
                  Go.DeriveSingleSig(lib, xpub, index, scriptType, change, network))
  {
    assert Prefix(xpub) == xpub[..4];
    assert Py.PrefixIsMainnet(Prefix(xpub)) == (network == "mainnet");
    match ParseExtendedKey(lib, xpub)
    case Err(_) =>
    case Ok(key) =>
      DerivationAgrees(lib, key, change, index);
      match Go.DeriveChangeThenIndex(lib, key, ChangeIndex(change), index)
      case Err(_) =>
      case Ok(derived) =>
        SingleSigDispatchAgrees(lib, derived.publicKey, scriptType, network);
  }

  /** A Go key whose prefix names the other network is still read on the
      network argument's side, while Python follows the prefix: a tpub key
      with network "mainnet" yields a testnet address in Python and a mainnet
      address in Go. */
  lemma SingleSigNetworkSourceDiffers(lib: Lib, xpub: Go.KeyString, index: uint32, scriptType: string, change: bool)
    requires xpub[..4] == "tpub"
    requires Py.DeriveSingleSig(lib, xpub, index, scriptType, change, "mainnet").Ok?
    requires Go.DeriveSingleSig(lib, xpub, index, scriptType, change, "mainnet").Ok?
    ensures OnTestnet(Py.DeriveSingleSig(lib, xpub, index, scriptType, change, "mainnet").value)
    ensures OnMainnet(Go.DeriveSingleSig(lib, xpub, index, scriptType, change, "mainnet").value)
    ensures Py.DeriveSingleSig(lib, xpub, index, scriptType, change, "mainnet") !=
            Go.DeriveSingleSig(lib, xpub, index, scriptType, change, "mainnet")
  {
    assert Prefix(xpub) == "tpub";
    NetworksDisjoint(Go.DeriveSingleSig(lib, xpub, index, scriptType, change, "mainnet").value);
  }

  /** For a threshold in -1..16 other than 0 and 1..16 keys, the bytes Python
      assembles are the pushes txscript emits. */
  lemma RedeemScriptsAgree(lib: Lib, threshold: int, keys: seq<PubKey>)
    requires -1 <= threshold <= 16 && threshold != 0
    requires 1 <= |keys| <= 16
    ensures Py.RedeemScript(threshold, keys) == Go.RedeemScript(lib, threshold, keys)
  {
    Go.RedeemScriptSmall(lib, threshold, keys);
    var v := Py.RedeemScript(threshold, keys).value;
    assert v == [v[0]] + v[1..|v| - 2] + [v[|v| - 2], v[|v| - 1]];
  }

  /** Threshold 0: Python writes 0x50 (OP_RESERVED) where txscript writes OP_0. */
  lemma ThresholdZeroDiffers(lib: Lib, keys: seq<PubKey>)
    requires |keys| <= 16
    ensures Py.RedeemScript(0, keys).Ok? && Py.RedeemScript(0, keys).value[0] == 0x50
    ensures Go.RedeemScript(lib, 0, keys).Ok? && Go.RedeemScript(lib, 0, keys).value[0] == 0x00
  {
    Go.RedeemScriptSmall(lib, 0, keys);
  }

  /** One xpub/tpub cosigner: both scripts derive the same key or both fail. */
  lemma CosignerAgrees(lib: Lib, xpub: Go.KeyString, network: string, change: bool, index: uint32)
    requires IsCanonicalPrefix(xpub[..4])
    ensures Agree(Py.CosignerKey(lib, xpub, network == "mainnet", ChangeIndex(change), index),
                  Go.CosignerKey(lib, xpub, network, ChangeIndex(change), index))
  {
    assert Prefix(xpub) == xpub[..4];
    match ParseExtendedKey(lib, xpub)
    case Err(_) =>
    case Ok(key) =>
      DerivationAgrees(lib, key, change, index);
  }

  /** Once the keys are collected, both scripts build the same address. */
  lemma AddressFromKeysAgrees(lib: Lib, keys: seq<PubKey>, threshold: int, scriptType: string, network: string)
    requires 1 <= threshold <= 16 && 1 <= |keys| <= 16
    ensures Py.AddressFromKeys(lib, keys, threshold, scriptType, network == "mainnet") ==
            Go.AddressFromKeys(lib, keys, threshold, scriptType, network)
  {
    var sorted := SortKeys(keys);
    assert |sorted| == |multiset(sorted)| == |keys|;
    RedeemScriptsAgree(lib, threshold, sorted);
  }

  /** The cosigner loops of both scripts collect the same keys or both fail. */
  lemma CollectedKeysAgree(lib: Lib, xpubs: seq<Go.KeyString>, change: bool, index: uint32, network: string)
    requires forall i :: 0 <= i < |xpubs| ==> IsCanonicalPrefix(xpubs[i][..4])
    ensures var strs: seq<string> := xpubs;
      Agree(Collect(MapSeq<string, Result<PubKey>>(Py.Cosigner(lib, network == "mainnet", ChangeIndex(change), index), strs)),
            Collect(MapSeq(Go.Cosigner(lib, network, ChangeIndex(change), index), xpubs)))
  {
    var strs: seq<string> := xpubs;
    var pyKeys := MapSeq<string, Result<PubKey>>(Py.Cosigner(lib, network == "mainnet", ChangeIndex(change), index), strs);
    var goKeys := MapSeq(Go.Cosigner(lib, network, ChangeIndex(change), index), xpubs);
    forall i | 0 <= i < |xpubs| ensures Agree(pyKeys[i], goKeys[i]) {
      CosignerAgrees(lib, xpubs[i], network, change, index);
    }
    CollectAgree(pyKeys, goKeys);
  }

  /** For xpub/tpub cosigners, a threshold in 1..16 and 1..16 keys, both
      multisig derivations give the same address or both fail. */
  lemma MultisigAgrees(lib: Lib, xpubs: seq<Go.KeyString>, threshold: int, index: uint32,
                       scriptType: string, change: bool, network: string)
    requires forall i :: 0 <= i < |xpubs| ==> IsCanonicalPrefix(xpubs[i][..4])
    requires 1 <= threshold <= 16 && 1 <= |xpubs| <= 16
    ensures Agree(Py.Multisig(lib, xpubs, threshold, index, scriptType, change, network),
                  Go.Multisig(lib, xpubs, threshold, index, scriptType, change, network))
  {
    var strs: seq<string> := xpubs;
    var pyKeys := Collect(MapSeq<string, Result<PubKey>>(Py.Cosigner(lib, network == "mainnet", ChangeIndex(change), index), strs));
    var goKeys := Collect(MapSeq(Go.Cosigner(lib, network, ChangeIndex(change), index), xpubs));
    CollectedKeysAgree(lib, xpubs, change, index, network);
    if pyKeys.Ok? {
      AddressFromKeysAgrees(lib, pyKeys.value, threshold, scriptType, network);
    }
  }
}
