/** Network parameters, extended-key version bytes, script-type tags and the
    address forms both scripts produce.  An address is modelled as the value
    the address encoder is asked to render: a Base58Check address (version
    byte and 20-byte hash) or a segwit address (human-readable part, witness
    version and program). */
module Bitcoin {
  import opened Wrappers
  import opened Crypto

  /** The part of chaincfg.Params / bip_utils CoinsConf that address encoding uses. */
  datatype NetParams = NetParams(
    name: string,
    pubKeyHashAddrID: byte,
    scriptHashAddrID: byte,
    bech32HRP: string)

  const MainNetParams := NetParams("mainnet", 0x00, 0x05, "bc")
  const TestNet3Params := NetParams("testnet3", 0x6F, 0xC4, "tb")

  function Params(isMainnet: bool): NetParams {
    if isMainnet then MainNetParams else TestNet3Params
  }

  /** Canonical BIP 32 version bytes of a public extended key:
      xpub on mainnet, tpub on testnet. */
  function ExtKeyVersion(isMainnet: bool): (v: Bytes)
    ensures |v| == 4 && v[0] == 0x04
    ensures isMainnet <==> v[1] == 0x88
  {
    if isMainnet then [0x04, 0x88, 0xB2, 0x1E] else [0x04, 0x35, 0x87, 0xCF]
  }

  const SingleSigTypes: seq<string> := ["legacy", "nested_segwit", "native_segwit", "taproot"]
  const MultisigTypes: seq<string> := ["p2sh", "p2wsh", "p2sh_p2wsh"]

  /** The first four characters of a key string, as Python's xpub[:4]
      (shorter when the string is shorter). */
  function Prefix(xpub: string): (p: string)
    ensures p <= xpub
    ensures |p| == if |xpub| < 4 then |xpub| else 4
  {
    if |xpub| < 4 then xpub else xpub[..4]
  }

  /** Prefixes that already carry the canonical version bytes. */
  predicate IsCanonicalPrefix(prefix: string) {
    prefix == "xpub" || prefix == "tpub"
  }

  datatype Address =
    | Base58Address(version: byte, hash: Digest20)
    | SegwitAddress(hrp: string, witnessVersion: nat, program: Bytes)

  predicate OnMainnet(a: Address) {
    match a
    case Base58Address(v, _) => v == MainNetParams.pubKeyHashAddrID || v == MainNetParams.scriptHashAddrID
    case SegwitAddress(hrp, _, _) => hrp == MainNetParams.bech32HRP
  }

  predicate OnTestnet(a: Address) {
    match a
    case Base58Address(v, _) => v == TestNet3Params.pubKeyHashAddrID || v == TestNet3Params.scriptHashAddrID
    case SegwitAddress(hrp, _, _) => hrp == TestNet3Params.bech32HRP
  }

  /** The address text: Base58Check of version and hash, or Bech32 (v0) / Bech32m (v1). */
  function Render(lib: Lib, a: Address): string {
    match a
    case Base58Address(v, h) => CheckEncode(lib, [v] + h)
    case SegwitAddress(hrp, wv, prog) => lib.segwitEncode(hrp, wv, prog)
  }

  /** A rendered Base58 address decodes back to its version byte and hash. */
  lemma RenderBase58RoundTrip(lib: Lib, a: Address)
    requires RawRoundTrip(lib) && a.Base58Address?
    ensures CheckDecode(lib, Render(lib, a)) == Ok([a.version] + a.hash)
  {
    CheckRoundTrip(lib, [a.version] + a.hash);
  }

  /** The P2WPKH witness program OP_0 <20-byte key hash> of BIP 141. */
  function P2WPKHProgram(keyHash: Digest20): (p: Bytes)
    ensures |p| == 22 && p[0] == 0x00 && p[1] == 0x14 && p[2..] == keyHash
  {
    [0x00, 0x14] + keyHash
  }

  /** The P2WSH witness program OP_0 <32-byte script hash> of BIP 141. */
  function P2WSHProgram(scriptHash: Digest32): (p: Bytes)
    ensures |p| == 34 && p[0] == 0x00 && p[1] == 0x20 && p[2..] == scriptHash
  {
    [0x00, 0x20] + scriptHash
  }

  /** The x-only key of BIP 340: the compressed key without its parity byte. */
  function XOnly(pk: PubKey): (x: Bytes)
    ensures |x| == 32 && pk == [pk[0]] + x
  {
    pk[1..33]
  }

  // The four single-sig address forms, and the multisig form over a hash.

  function PayToPubKeyHash(lib: Lib, net: NetParams, pk: PubKey): Address {
    Base58Address(net.pubKeyHashAddrID, Hash160(lib, pk))
  }

  function PayToNestedWitnessPubKeyHash(lib: Lib, net: NetParams, pk: PubKey): Address {
    Base58Address(net.scriptHashAddrID, Hash160(lib, P2WPKHProgram(Hash160(lib, pk))))
  }

  function PayToWitnessPubKeyHash(lib: Lib, net: NetParams, pk: PubKey): Address {
    SegwitAddress(net.bech32HRP, 0, Hash160(lib, pk))
  }

  function PayToTaproot(net: NetParams, pk: PubKey): Address {
    SegwitAddress(net.bech32HRP, 1, XOnly(pk))
  }

  function PayToScriptHash(net: NetParams, h: Digest20): Address {
    Base58Address(net.scriptHashAddrID, h)
  }

  function PayToWitnessScriptHash(net: NetParams, h: Digest32): Address {
    SegwitAddress(net.bech32HRP, 0, h)
  }

  /** The data pushes of a multisig script: each compressed key preceded by
      its length byte (33, the direct-push opcode OP_DATA_33), in order. */
  function KeyPushes(keys: seq<PubKey>): (b: Bytes)
    ensures |b| == 34 * |keys|
  {
    if keys == [] then [] else KeyPushes(keys[..|keys| - 1]) + [|keys[|keys| - 1]|] + keys[|keys| - 1]
  }

  lemma KeyPushesSnoc(keys: seq<PubKey>, j: nat)
    requires j < |keys|
    ensures KeyPushes(keys[..j + 1]) == KeyPushes(keys[..j]) + [|keys[j]|] + keys[j]
  {
    assert keys[..j + 1][..j] == keys[..j];
  }

  /** Key i sits at offset 34 * i, after its one-byte length. */
  lemma {:induction false} KeyPushesLayout(keys: seq<PubKey>, i: nat)
    requires i < |keys|
    ensures KeyPushes(keys)[34 * i] == 33
    ensures KeyPushes(keys)[34 * i + 1..34 * i + 34] == keys[i]
  {
    var n := |keys| - 1;
    var init := KeyPushes(keys[..n]);
    assert KeyPushes(keys) == init + ([33] + keys[n]);
    if i < n {
      KeyPushesLayout(keys[..n], i);
      assert keys[..n][i] == keys[i];
      assert KeyPushes(keys)[..34 * n] == init;
    } else {
      assert KeyPushes(keys)[34 * n..] == [33] + keys[n];
    }
  }

  /** The multisig hash chain: HASH160 of the redeem script for p2sh, its
      SHA-256 for p2wsh, and HASH160 of the P2WSH program for p2sh_p2wsh. */
  function MultisigAddress(lib: Lib, script: Bytes, scriptType: string, isMainnet: bool): (r: Result<Address>)
    ensures r.Ok? <==> scriptType in MultisigTypes
    ensures r.Err? ==> r.error == UnknownScriptType(scriptType)
    ensures r.Ok? ==> (OnMainnet(r.value) <==> isMainnet) && (OnTestnet(r.value) <==> !isMainnet)
    ensures scriptType == "p2sh" ==>
      r == Ok(Base58Address(if isMainnet then 0x05 else 0xC4, lib.ripemd160(lib.sha256(script))))
    ensures scriptType == "p2wsh" ==>
      r == Ok(SegwitAddress(if isMainnet then "bc" else "tb", 0, lib.sha256(script)))
    ensures scriptType == "p2sh_p2wsh" ==>
      r == Ok(Base58Address(if isMainnet then 0x05 else 0xC4, Hash160(lib, [0x00, 0x20] + lib.sha256(script))))
  {
    var conf := Params(isMainnet);
    if scriptType == "p2sh" then Ok(PayToScriptHash(conf, Hash160(lib, script)))
    else if scriptType == "p2wsh" then Ok(PayToWitnessScriptHash(conf, lib.sha256(script)))
    else if scriptType == "p2sh_p2wsh" then Ok(PayToScriptHash(conf, Hash160(lib, P2WSHProgram(lib.sha256(script)))))
    else Err(UnknownScriptType(scriptType))
  }

  /** Each network's addresses are recognisably its own. */
  lemma NetworksDisjoint(a: Address)
    ensures !(OnMainnet(a) && OnTestnet(a))
  {
  }
}
