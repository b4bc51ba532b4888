/** The primitives both scripts take from libraries: hashes, raw Base58,
    Bech32/Bech32m, the BIP 32 parser and public child-key derivation.  They
    are fields of `Lib`, total functions whose result types carry the length
    each primitive guarantees; nothing else about them is assumed.  The
    Base58Check framing (payload followed by the first four bytes of a double
    SHA-256) is written out, because the Python and Go libraries frame it
    differently. */
module Crypto {
  import opened Wrappers

  type byte = x: int | 0 <= x < 256
  type Bytes = seq<byte>
  type uint32 = x: int | 0 <= x < 0x1_0000_0000

  type Digest32 = s: Bytes | |s| == 32 witness seq(32, _ => 0)
  type Digest20 = s: Bytes | |s| == 20 witness seq(20, _ => 0)

  /** A 33-byte compressed SEC1 public key. */
  type PubKey = s: Bytes | |s| == 33 witness seq(33, _ => 2)

  /** A parsed BIP 32 extended public key. */
  datatype ExtKey = ExtKey(
    version: Bytes,
    depth: byte,
    parentFingerprint: Bytes,
    childNumber: uint32,
    chainCode: Bytes,
    publicKey: PubKey)

  datatype Lib = Lib(
    sha256: Bytes -> Digest32,
    ripemd160: Bytes -> Digest20,
    /** Base58 alphabet decoding without a checksum; None on a character outside the alphabet. */
    base58Decode: string -> Option<Bytes>,
    base58Encode: Bytes -> string,
    /** bip_utils FromExtendedKey / hdkeychain NewKeyFromString. */
    parseExtendedKey: string -> Option<ExtKey>,
    /** BIP 32 public parent key to public child key; None when the child is invalid
        or the index is hardened. */
    ckd: (ExtKey, uint32) -> Option<ExtKey>,
    /** BIP 173 / BIP 350 segwit address text for (hrp, witness version, program). */
    segwitEncode: (string, nat, Bytes) -> string,
    /** txscript's data push of the script-number encoding of an integer outside -1..16. */
    scriptNumPush: int -> Bytes)

  /** HASH160: RIPEMD-160 of SHA-256 (btcutil.Hash160). */
  function Hash160(lib: Lib, b: Bytes): Digest20
  {
    lib.ripemd160(lib.sha256(b))
  }

  /** The four checksum bytes of Base58Check. */
  function Checksum(lib: Lib, payload: Bytes): (c: Bytes)
    ensures |c| == 4
  {
    lib.sha256(lib.sha256(payload))[..4]
  }

  /** bip_utils Base58Encoder.CheckEncode: the payload as given, then its checksum. */
  function CheckEncode(lib: Lib, payload: Bytes): (s: string)
    ensures RawRoundTrip(lib) ==> lib.base58Decode(s) == Some(payload + Checksum(lib, payload))
  {
    lib.base58Encode(payload + Checksum(lib, payload))
  }

  /** bip_utils Base58Decoder.CheckDecode: strips and verifies the checksum. */
  function CheckDecode(lib: Lib, s: string): (r: Result<Bytes>)
    ensures r.Ok? ==> lib.base58Decode(s) == Some(r.value + Checksum(lib, r.value))
    ensures r.Err? ==> r.error == DecodeError
    ensures forall p: Bytes :: lib.base58Decode(s) == Some(p + Checksum(lib, p)) ==> r == Ok(p)
  {
    assert forall p: Bytes :: lib.base58Decode(s) == Some(p + Checksum(lib, p)) ==>
      var raw := p + Checksum(lib, p);
      raw[..|raw| - 4] == p && raw[|raw| - 4..] == Checksum(lib, p);
    match lib.base58Decode(s)
    case None => Err(DecodeError)
    case Some(raw) =>
      if |raw| < 4 then Err(DecodeError)
      else
        var payload := raw[..|raw| - 4];
        if raw[|raw| - 4..] == Checksum(lib, payload) then
          assert raw == payload + raw[|raw| - 4..];
          Ok(payload)
        else Err(DecodeError)
  }

  /** btcutil/base58 CheckEncode(input, version): the version byte is
      prepended to the input before the checksum is taken. */
  function GoCheckEncode(lib: Lib, input: Bytes, version: byte): (s: string)
    ensures s == CheckEncode(lib, [version] + input)
  {
    var framed := [version] + input;
    lib.base58Encode(framed + Checksum(lib, framed))
  }

  /** Parsing a serialised extended key (bip_utils FromExtendedKey,
      hdkeychain NewKeyFromString). */
  function ParseExtendedKey(lib: Lib, s: string): Result<ExtKey>
  {
    match lib.parseExtendedKey(s)
    case None => Err(ParseError)
    case Some(key) => Ok(key)
  }

  /** btcutil/base58 Decode: raw bytes, checksum included; empty on a bad character. */
  function GoDecode(lib: Lib, s: string): Bytes
  {
    match lib.base58Decode(s)
    case None => []
    case Some(raw) => raw
  }

  /** Raw Base58 decoding undoes raw Base58 encoding. */
  ghost predicate RawRoundTrip(lib: Lib) {
    forall b: Bytes :: lib.base58Decode(lib.base58Encode(b)) == Some(b)
  }

  /** Base58Check decoding undoes Base58Check encoding. */
  lemma CheckRoundTrip(lib: Lib, payload: Bytes)
    requires RawRoundTrip(lib)
    ensures CheckDecode(lib, CheckEncode(lib, payload)) == Ok(payload)
  {
    assert lib.base58Decode(CheckEncode(lib, payload)) == Some(payload + Checksum(lib, payload));
  }

  /** Go's lenient decoder sees the framed bytes, checksum included. */
  lemma GoDecodeOfCheckEncode(lib: Lib, payload: Bytes)
    requires RawRoundTrip(lib)
    ensures GoDecode(lib, CheckEncode(lib, payload)) == payload + Checksum(lib, payload)
    ensures |GoDecode(lib, CheckEncode(lib, payload))| == |payload| + 4
  {
    assert lib.base58Decode(CheckEncode(lib, payload)) == Some(payload + Checksum(lib, payload));
  }
}
