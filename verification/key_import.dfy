/**
 * Wallet key import (`importWalletFlexible` and `importWallet`). The input
 * is read as a JSON key file, a 128-digit hex string or a base58 string,
 * in that order; the decoded key must be 64 bytes; it is re-encoded in
 * base58, decoded again, checked again, turned into an address, and
 * stored in the keychain as lower-case hex.
 */
module KeyImport {
  import opened Wrappers

  type byte = x: int | 0 <= x < 256
  type Bytes = seq<byte>

  /** The length of an Ed25519 secret key with its public half appended. */
  const KeyLength := 64

  // ---------------------------------------------------------------- hex

  predicate IsHexDigit(c: char) {
    '0' <= c <= '9' || 'a' <= c <= 'f' || 'A' <= c <= 'F'
  }

  /** `/^[0-9a-f]{128}$/i`: exactly 128 hex digits of either case. */
  predicate LooksLikeHexKey(s: string) {
    |s| == 2 * KeyLength && forall i :: 0 <= i < |s| ==> IsHexDigit(s[i])
  }

  function HexValue(c: char): (v: nat)
    requires IsHexDigit(c)
    ensures v < 16
  {
    if '0' <= c <= '9' then c as int - '0' as int
    else if 'a' <= c <= 'f' then c as int - 'a' as int + 10
    else c as int - 'A' as int + 10
  }

  /** The lower-case digit of `v`, as `Buffer.toString('hex')` writes it. */
  function HexDigit(v: nat): (c: char)
    requires v < 16
    ensures IsHexDigit(c) && HexValue(c) == v
    ensures !('A' <= c <= 'F')
  {
    if v < 10 then ('0' as int + v) as char else ('a' as int + v - 10) as char
  }

  /** A hex digit in lower case. */
  function Lower(c: char): (d: char)
    requires IsHexDigit(c)
    ensures IsHexDigit(d) && HexValue(d) == HexValue(c) && !('A' <= d <= 'F')
  {
    if 'A' <= c <= 'F' then (c as int - 'A' as int + 'a' as int) as char else c
  }

  function LowerAll(s: string): (r: string)
    requires forall i :: 0 <= i < |s| ==> IsHexDigit(s[i])
    ensures |r| == |s|
  {
    seq(|s|, i requires 0 <= i < |s| => Lower(s[i]))
  }

  /** `Buffer.from(s, 'hex')` on a string of an even number of hex digits: one byte per digit pair. */
  function HexDecode(s: string): (r: Bytes)
    requires |s| % 2 == 0 && forall i :: 0 <= i < |s| ==> IsHexDigit(s[i])
    ensures |r| == |s| / 2
    decreases |s|
  {
    if s == [] then [] else [16 * HexValue(s[0]) + HexValue(s[1])] + HexDecode(s[2..])
  }

  /** `Buffer.from(b).toString('hex')`: two lower-case digits per byte. */
  function HexEncode(b: Bytes): (r: string)
    ensures |r| == 2 * |b|
    ensures forall i :: 0 <= i < |r| ==> IsHexDigit(r[i]) && !('A' <= r[i] <= 'F')
    decreases |b|
  {
    if b == [] then [] else [HexDigit(b[0] / 16), HexDigit(b[0] % 16)] + HexEncode(b[1..])
  }

  /** Decoding the hex of some bytes gives those bytes back. */
  lemma {:induction false} HexDecodeEncode(b: Bytes)
    ensures HexDecode(HexEncode(b)) == b
    decreases |b|
  {
    if b != [] {
      var s := HexEncode(b);
      assert s[2..] == HexEncode(b[1..]);
      HexDecodeEncode(b[1..]);
    }
  }

  /** The digit written for the value of a digit is that digit in lower case. */
  lemma DigitOfValue(c: char)
    requires IsHexDigit(c)
    ensures HexDigit(HexValue(c)) == Lower(c)
  {
  }

  /** One decoded byte splits back into the values of its two digits. */
  lemma PairRoundTrip(c0: char, c1: char)
    requires IsHexDigit(c0) && IsHexDigit(c1)
    ensures var v := 16 * HexValue(c0) + HexValue(c1);
            v < 256 && HexDigit(v / 16) == Lower(c0) && HexDigit(v % 16) == Lower(c1)
  {
    var v := 16 * HexValue(c0) + HexValue(c1);
    assert v / 16 == HexValue(c0) && v % 16 == HexValue(c1);
    DigitOfValue(c0);
    DigitOfValue(c1);
  }

  /** Encoding decoded hex gives the input back in lower case: decoding ignores case and loses nothing else. */
  lemma {:induction false} HexEncodeDecode(s: string)
    requires |s| % 2 == 0 && forall i :: 0 <= i < |s| ==> IsHexDigit(s[i])
    ensures HexEncode(HexDecode(s)) == LowerAll(s)
    decreases |s|
  {
    if s != [] {
      var d := HexDecode(s);
      PairRoundTrip(s[0], s[1]);
      assert d[0] == 16 * HexValue(s[0]) + HexValue(s[1]) && d[1..] == HexDecode(s[2..]);
      HexEncodeDecode(s[2..]);
      LowerAllPair(s);
      assert HexEncode(d) == [Lower(s[0]), Lower(s[1])] + LowerAll(s[2..]);
    }
  }

  lemma LowerAllPair(s: string)
    requires 2 <= |s| && forall i :: 0 <= i < |s| ==> IsHexDigit(s[i])
    ensures LowerAll(s) == [Lower(s[0]), Lower(s[1])] + LowerAll(s[2..])
  {
    var r := [Lower(s[0]), Lower(s[1])] + LowerAll(s[2..]);
    forall i | 0 <= i < |s|
      ensures LowerAll(s)[i] == r[i]
    {
      if 2 <= i {
        assert r[i] == LowerAll(s[2..])[i - 2];
      }
    }
  }

  /** Upper- and lower-case spellings of the same hex decode to the same bytes. */
  lemma HexDecodeIgnoresCase(s: string, u: string)
    requires |s| % 2 == 0 && forall i :: 0 <= i < |s| ==> IsHexDigit(s[i])
    requires |u| == |s| && forall i :: 0 <= i < |u| ==> IsHexDigit(u[i])
    requires LowerAll(s) == LowerAll(u)
    ensures HexDecode(s) == HexDecode(u)
  {
    HexEncodeDecode(s);
    HexEncodeDecode(u);
    HexDecodeEncode(HexDecode(s));
    HexDecodeEncode(HexDecode(u));
  }

  // ---------------------------------------------------------------- the environment

  /** What `JSON.parse` makes of a key file. */
  datatype JsonContent =
    | Unparsable                 // the file is not JSON
    | NotAnArray                 // valid JSON, but not an array
    | NumberArray(items: seq<int>)

  /**
   * The calls into code outside the model: the file system, JSON parsing,
   * the bs58 library, and address derivation by the key-pair signer
   * (`None` where the call throws).
   */
  datatype KeyEnv = KeyEnv(
    fileExists: string -> bool,
    readJson: string -> JsonContent,
    base58Decode: string -> Option<Bytes>,
    base58Encode: Bytes -> string,
    deriveAddress: Bytes -> Option<string>)

  datatype KeyError =
    | InvalidJson                     // JSON.parse threw
    | NotAnArrayOfNumbers             // the JSON key file does not hold an array
    | NotBase58                       // bs58.decode threw
    | InvalidDecodedLength(n: nat)    // importWalletFlexible: not 64 bytes after decoding
    | InvalidKeyLength(n: nat)        // importWallet: not 64 bytes
    | InvalidKey                      // the signer rejected the bytes

  predicate EndsWith(s: string, suffix: string) {
    |s| >= |suffix| && s[|s| - |suffix|..] == suffix
  }

  /** `Uint8Array.from` on an integer: the value modulo 256. */
  function ToUint8(x: int): (b: byte)
    ensures (b - x) % 256 == 0
    ensures 0 <= x < 256 ==> b == x
  {
    x % 256
  }

  function ToBytes(xs: seq<int>): (r: Bytes)
    ensures |r| == |xs|
    ensures forall i :: 0 <= i < |xs| ==> r[i] == ToUint8(xs[i])
  {
    seq(|xs|, i requires 0 <= i < |xs| => ToUint8(xs[i]))
  }

  // ---------------------------------------------------------------- importWalletFlexible

  /**
   * The format cascade: an existing file whose name ends in ".json" is read
   * as a JSON array of numbers; otherwise 128 hex digits are decoded as hex;
   * anything else goes to base58.
   */
  function DecodeInput(input: string, env: KeyEnv): (r: Result<Bytes, KeyError>)
    ensures EndsWith(input, ".json") && env.fileExists(input) ==>
              r == match env.readJson(input)
                   case Unparsable => Failure(InvalidJson)
                   case NotAnArray => Failure(NotAnArrayOfNumbers)
                   case NumberArray(xs) => Success(ToBytes(xs))
    ensures !(EndsWith(input, ".json") && env.fileExists(input)) && LooksLikeHexKey(input) ==>
              r == Success(HexDecode(input))
    ensures !(EndsWith(input, ".json") && env.fileExists(input)) && !LooksLikeHexKey(input) ==>
              r == if env.base58Decode(input).Some? then Success(env.base58Decode(input).value) else Failure(NotBase58)
  {
    if EndsWith(input, ".json") && env.fileExists(input) then
      match env.readJson(input)
      case Unparsable => Failure(InvalidJson)
      case NotAnArray => Failure(NotAnArrayOfNumbers)
      case NumberArray(xs) => Success(ToBytes(xs))
    else if LooksLikeHexKey(input) then Success(HexDecode(input))
    else match env.base58Decode(input)
      case None => Failure(NotBase58)
      case Some(b) => Success(b)
  }

  /** The cascade followed by the length check: exactly 64 decoded bytes, or the decoded length is reported. */
  function DecodeKeyInput(input: string, env: KeyEnv): (r: Result<Bytes, KeyError>)
    ensures r.Success? <==> DecodeInput(input, env).Success? && |DecodeInput(input, env).value| == KeyLength
    ensures r.Success? ==> r.value == DecodeInput(input, env).value && |r.value| == KeyLength
    ensures DecodeInput(input, env).Failure? ==> r == DecodeInput(input, env)
    ensures DecodeInput(input, env).Success? && |DecodeInput(input, env).value| != KeyLength ==>
              r == Failure(InvalidDecodedLength(|DecodeInput(input, env).value|))
  {
    var d := DecodeInput(input, env);
    if d.Failure? then d
    else if |d.value| != KeyLength then Failure(InvalidDecodedLength(|d.value|))
    else d
  }

  /** A hex key is never taken for a file name and always decodes to 64 bytes, whatever the environment. */
  lemma HexKeyDecodes(input: string, env: KeyEnv)
    requires LooksLikeHexKey(input)
    ensures DecodeKeyInput(input, env) == Success(HexDecode(input))
    ensures |HexDecode(input)| == KeyLength
  {
    var tail := input[|input| - 5..];
    assert tail[0] == input[|input| - 5] && IsHexDigit(tail[0]);
    assert !EndsWith(input, ".json");
  }

  /** `[...b.slice(0, 32), ...b.slice(32)]`: the secret half and the public half put back together. */
  function Rebuild(b: Bytes): (r: Bytes)
    requires |b| == KeyLength
    ensures r == b
  {
    b[..32] + b[32..]
  }

  /** What a successful import returns, and the entry it saves in the keychain. */
  datatype Imported = Imported(publicKey: string, keychainRef: string, savedName: string, savedHex: string)

  // ---------------------------------------------------------------- importWallet

  /**
   * `importWallet(name, privateKeyBase58)`: decode, require 64 bytes,
   * derive the address, save the bytes as hex under `name`.
   */
  function ImportWallet(name: string, privateKeyBase58: string, env: KeyEnv): (r: Result<Imported, KeyError>)
    ensures env.base58Decode(privateKeyBase58).None? ==> r == Failure(NotBase58)
    ensures r.Success? <==>
              && env.base58Decode(privateKeyBase58).Some?
              && |env.base58Decode(privateKeyBase58).value| == KeyLength
              && env.deriveAddress(env.base58Decode(privateKeyBase58).value).Some?
    ensures env.base58Decode(privateKeyBase58).Some? && |env.base58Decode(privateKeyBase58).value| != KeyLength ==>
              r == Failure(InvalidKeyLength(|env.base58Decode(privateKeyBase58).value|))
    ensures r.Success? ==>
              var full := env.base58Decode(privateKeyBase58).value;
              && r.value.publicKey == env.deriveAddress(full).value
              && r.value.keychainRef == name && r.value.savedName == name
              && LooksLikeHexKey(r.value.savedHex)
              && HexDecode(r.value.savedHex) == full
  {
    match env.base58Decode(privateKeyBase58)
    case None => Failure(NotBase58)
    case Some(full) =>
      if |full| != KeyLength then Failure(InvalidKeyLength(|full|))
      else match env.deriveAddress(full)
        case None => Failure(InvalidKey)
        case Some(address) =>
          HexDecodeEncode(full);
          Success(Imported(address, name, name, HexEncode(full)))
  }

  /** `importWalletFlexible(name, input)`: decode the input, rebuild the key, and import its base58 form. */
  function ImportWalletFlexible(name: string, input: string, env: KeyEnv): (r: Result<Imported, KeyError>)
    ensures DecodeKeyInput(input, env).Failure? ==> r == Failure(DecodeKeyInput(input, env).error)
  {
    match DecodeKeyInput(input, env)
    case Failure(e) => Failure(e)
    case Success(b) => ImportWallet(name, env.base58Encode(Rebuild(b)), env)
  }

  /**
   * When base58 decoding inverts base58 encoding on the decoded key, a
   * flexible import stores exactly the key the input decoded to, under the
   * address derived from it, and fails only where decoding or derivation do.
   */
  lemma FlexibleImportStoresDecodedKey(name: string, input: string, env: KeyEnv)
    requires DecodeKeyInput(input, env).Success? ==>
               env.base58Decode(env.base58Encode(DecodeKeyInput(input, env).value)) == Some(DecodeKeyInput(input, env).value)
    ensures var r := ImportWalletFlexible(name, input, env);
            && (r.Success? <==> DecodeKeyInput(input, env).Success? && env.deriveAddress(DecodeKeyInput(input, env).value).Some?)
            && (r.Success? ==>
                  && r.value.publicKey == env.deriveAddress(DecodeKeyInput(input, env).value).value
                  && r.value.keychainRef == name && r.value.savedName == name
                  && HexDecode(r.value.savedHex) == DecodeKeyInput(input, env).value)
  {
  }

  /** The hex saved by an import is itself an accepted input, and it decodes to the saved key. */
  lemma SavedHexReimports(name: string, input: string, env: KeyEnv)
    requires ImportWalletFlexible(name, input, env).Success?
    ensures var saved := ImportWalletFlexible(name, input, env).value.savedHex;
            DecodeKeyInput(saved, env) == Success(HexDecode(saved))
  {
    HexKeyDecodes(ImportWalletFlexible(name, input, env).value.savedHex, env);
  }
}
