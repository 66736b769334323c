/**
 * `Pbkdf2Cryptography`: the framing and comparison logic around the
 * cryptographic primitives. The primitives themselves (PBKDF2, the
 * Rijndael cipher, MD5, Base64, the text encoding) are parameters: a
 * `Primitives` value, about which the lemmas assume only the properties
 * listed in `Sound`. Random number generators are parameters too.
 */
module Pbkdf2Cryptography {
  import opened Wrappers
  import opened DotNet

  const SaltByteSize: int := 24
  const HashByteSize: int := 20
  const KeyByteSize: int := 256
  const Pbkdf2Iterations: int := 1000
  const IterationIndex: int := 0
  const SaltIndex: int := 1
  const Pbkdf2Index: int := 2

  /** Bytes drawn by `Generate256BitsOfRandomEntropy`. */
  const EntropyByteSize: int := 32
  /** The size of an MD5 digest. */
  const Md5DigestSize: int := 16
  /** `Rfc2898DeriveBytes` refuses a salt shorter than this. */
  const MinSaltSize: int := 8

  /** A .NET `byte[]`: its length is an `int`. */
  type ByteArray = s: seq<byte> | |s| <= Int32Max

  /** The library primitives, as functions. */
  datatype Primitives = Primitives(
    toBase64: seq<byte> -> string,
    fromBase64: string -> Option<ByteArray>,
    pbkdf2: (string, ByteArray, int, int) -> ByteArray,
    encrypt: (ByteArray, ByteArray, ByteArray) -> ByteArray,
    decrypt: (ByteArray, ByteArray, ByteArray) -> Option<ByteArray>,
    md5: ByteArray -> ByteArray,
    encodeDefault: string -> ByteArray)

  /** What the lemmas assume of the primitives. */
  ghost predicate Sound(p: Primitives) {
    // Base64 text uses A-Z, a-z, 0-9, '+', '/' and '=' only.
    && (forall b :: ':' !in p.toBase64(b))
    && (forall b: ByteArray :: p.fromBase64(p.toBase64(b)) == Some(b))
    && (forall pw, salt, it, n :: 0 <= n <= Int32Max ==> |p.pbkdf2(pw, salt, it, n)| == n)
    // Decryption undoes encryption; PKCS7 padding on a 32-byte block adds 1 to 32 bytes.
    // Both are asked only of plaintexts whose ciphertext still fits in a byte[].
    && (forall k, iv, m: ByteArray :: |m| + EntropyByteSize <= Int32Max ==>
          p.decrypt(k, iv, p.encrypt(k, iv, m)) == Some(m))
    && (forall k, iv, m: ByteArray :: |m| + EntropyByteSize <= Int32Max ==>
          |m| < |p.encrypt(k, iv, m)| <= |m| + EntropyByteSize)
    && (forall b :: |p.md5(b)| == Md5DigestSize)
  }

  /**
   * `Sound` can be met: Base64 as one character per byte, PBKDF2 as zeros,
   * a cipher that appends one padding byte, MD5 as sixteen zeros.
   */
  lemma SoundPrimitivesExist()
    ensures exists p :: Sound(p)
  {
    var p := Primitives(WitnessToBase64, WitnessFromBase64, WitnessPbkdf2,
      WitnessEncrypt, WitnessDecrypt, WitnessMd5, WitnessEncode);
    forall b: ByteArray
      ensures p.fromBase64(p.toBase64(b)) == Some(b)
    {
      WitnessBase64RoundTrip(b);
    }
    assert Sound(p);
  }

  function WitnessPbkdf2(password: string, salt: ByteArray, iterations: int, n: int): ByteArray {
    seq(if 0 <= n <= Int32Max then n else 0, _ => 0)
  }

  function WitnessEncrypt(key: ByteArray, iv: ByteArray, m: ByteArray): ByteArray {
    if |m| < Int32Max then m + [1] else m
  }

  function WitnessDecrypt(key: ByteArray, iv: ByteArray, c: ByteArray): Option<ByteArray> {
    if |c| > 0 then Some(c[..|c| - 1]) else None
  }

  function WitnessMd5(b: ByteArray): ByteArray {
    seq(Md5DigestSize, _ => 0)
  }

  function WitnessEncode(s: string): ByteArray {
    []
  }

  /** One character per byte, offset past the digits and ':'. */
  function WitnessToBase64(b: seq<byte>): (s: string)
    ensures |s| == |b| && forall i :: 0 <= i < |s| ==> 65 <= s[i] as int < 321
  {
    seq(|b|, i requires 0 <= i < |b| => (b[i] as int + 65) as char)
  }

  function WitnessFromBase64(s: string): Option<ByteArray> {
    if |s| <= Int32Max && forall i :: 0 <= i < |s| ==> 65 <= s[i] as int < 321 then
      Some(seq(|s|, i requires 0 <= i < |s| && 65 <= s[i] as int < 321 => (s[i] as int - 65) as byte))
    else None
  }

  lemma WitnessBase64RoundTrip(b: ByteArray)
    ensures WitnessFromBase64(WitnessToBase64(b)) == Some(b)
  {
    var s := WitnessToBase64(b);
    assert WitnessFromBase64(s).Some?;
    var d := WitnessFromBase64(s).value;
    assert |d| == |b|;
    forall i | 0 <= i < |b|
      ensures d[i] == b[i]
    {
      assert s[i] as int == b[i] as int + 65;
      ByteValueRoundTrip(b[i]);
    }
    assert d == b;
  }

  datatype CryptoError =
    | IndexOutOfRange     // a field of the stored hash is missing
    | FormatError         // a field does not parse as an integer or as Base64
    | OverflowError       // the iteration count is outside the int range
    | ArgumentError       // the salt is shorter than MinSaltSize
    | ArgumentOutOfRange  // a non-positive iteration count or output length
    | CryptographicError  // the cipher refused its IV or its input

  /** `n` bytes written by a random number generator into a fresh array. */
  function RandomBytes(n: nat, rng: nat -> byte): (r: seq<byte>)
    ensures |r| == n
  {
    seq(n, i requires 0 <= i => rng(i))
  }

  /**
   * `GetPbkdf2Bytes`: construct `Rfc2898DeriveBytes` (salt check), set the
   * iteration count (positive), take `outputBytes` bytes (positive).
   */
  function GetPbkdf2Bytes(password: string, salt: ByteArray, iterations: int, outputBytes: int, p: Primitives)
    : (r: Result<ByteArray, CryptoError>)
    ensures r.Success? <==> |salt| >= MinSaltSize && iterations > 0 && outputBytes > 0
    ensures r.Failure? ==> r.error == if |salt| < MinSaltSize then ArgumentError else ArgumentOutOfRange
    ensures Sound(p) && r.Success? && outputBytes <= Int32Max ==> |r.value| == outputBytes
  {
    if |salt| < MinSaltSize then Failure(ArgumentError)
    else if iterations <= 0 then Failure(ArgumentOutOfRange)
    else if outputBytes <= 0 then Failure(ArgumentOutOfRange)
    else Success(p.pbkdf2(password, salt, iterations, outputBytes))
  }

  // ------------------------------------------------ password hash strings

  /** The salt `HashPassword` draws from its generator. */
  function PasswordSalt(rng: nat -> byte): (salt: ByteArray)
    ensures |salt| == SaltByteSize
  {
    RandomBytes(SaltByteSize, rng)
  }

  /** The PBKDF2 hash `HashPassword` stores for `password` under `salt`. */
  function PasswordHash(password: string, salt: ByteArray, p: Primitives): (hash: ByteArray)
    requires |salt| >= MinSaltSize
    ensures Sound(p) ==> |hash| == HashByteSize
  {
    GetPbkdf2Bytes(password, salt, Pbkdf2Iterations, HashByteSize, p).value
  }

  /**
   * `HashPassword`: "1000:" + Base64(salt) + ":" + Base64(hash). Since Base64
   * text has no ':', the string splits into exactly those three fields.
   */
  function HashPassword(password: string, rng: nat -> byte, p: Primitives): (stored: string)
    ensures var salt := PasswordSalt(rng);
      var fields := [DecimalString(Pbkdf2Iterations), p.toBase64(salt), p.toBase64(PasswordHash(password, salt, p))];
      Sound(p) ==> Split(stored, ':') == fields
  {
    var salt := PasswordSalt(rng);
    var salt64, hash64 := p.toBase64(salt), p.toBase64(PasswordHash(password, salt, p));
    HashFields(salt64, hash64);
    DecimalString(Pbkdf2Iterations) + ":" + salt64 + ":" + hash64
  }

  /** The iteration count and two colon-free fields, joined by ':', split back into the three. */
  lemma HashFields(salt64: string, hash64: string)
    ensures ':' !in salt64 && ':' !in hash64 ==>
      Split(DecimalString(Pbkdf2Iterations) + ":" + salt64 + ":" + hash64, ':')
        == [DecimalString(Pbkdf2Iterations), salt64, hash64]
  {
    if ':' !in salt64 && ':' !in hash64 {
      var fields := [DecimalString(Pbkdf2Iterations), salt64, hash64];
      assert Join(fields, ':') == DecimalString(Pbkdf2Iterations) + ":" + salt64 + ":" + hash64 by {
        assert Join(fields[2..], ':') == fields[2];
      }
      assert ':' !in fields[0] by {
        forall i | 0 <= i < |fields[0]| ensures fields[0][i] != ':' {
          assert IsDigit(fields[0][i]);
        }
      }
      SplitJoin(fields, ':');
    }
  }

  /** The three fields `ValidatePassword` reads from a stored hash. */
  datatype StoredHash = StoredHash(iterations: int, salt: ByteArray, hash: ByteArray)

  /**
   * The field reads of `ValidatePassword`, in the order the source does
   * them: parse field 0, then index and decode field 1, then field 2.
   */
  function ParseStoredHash(correctHash: string, p: Primitives): (r: Result<StoredHash, CryptoError>)
    ensures r.Success? ==> |Split(correctHash, ':')| >= 3
  {
    ParseFields(Split(correctHash, ':'), p)
  }

  /** The reads of `ParseStoredHash` on the fields `Split` gave. */
  function ParseFields(split: seq<string>, p: Primitives): (r: Result<StoredHash, CryptoError>)
    requires |split| >= 1
    ensures r.Success? ==> |split| >= 3
  {
    match ParseInt32(split[IterationIndex])
    case Error(e) => Failure(if e == BadFormat then FormatError else OverflowError)
    case Value(iterations) =>
      if |split| <= SaltIndex then Failure(IndexOutOfRange)
      else match p.fromBase64(split[SaltIndex])
      case None => Failure(FormatError)
      case Some(salt) =>
        if |split| <= Pbkdf2Index then Failure(IndexOutOfRange)
        else match p.fromBase64(split[Pbkdf2Index])
        case None => Failure(FormatError)
        case Some(hash) => Success(StoredHash(iterations, salt, hash))
  }

  /** Fields after the third are never read. */
  lemma FieldsAfterThirdUnread(split: seq<string>, more: seq<string>, p: Primitives)
    requires |split| >= 3
    ensures ParseFields(split + more, p) == ParseFields(split, p)
  {
    var whole := split + more;
    assert whole[IterationIndex] == split[IterationIndex];
    assert whole[SaltIndex] == split[SaltIndex];
    assert whole[Pbkdf2Index] == split[Pbkdf2Index];
  }

  /** A stored hash produced by `HashPassword` reads back as (1000, salt, hash). */
  lemma ParseHashPassword(password: string, rng: nat -> byte, p: Primitives)
    requires Sound(p)
    ensures var salt := PasswordSalt(rng);
      ParseStoredHash(HashPassword(password, rng, p), p)
        == Success(StoredHash(Pbkdf2Iterations, salt, PasswordHash(password, salt, p)))
  {
    var salt := PasswordSalt(rng);
    var hash := PasswordHash(password, salt, p);
    assert Split(HashPassword(password, rng, p), ':') == [DecimalString(Pbkdf2Iterations), p.toBase64(salt), p.toBase64(hash)];
    ParseDecimal(Pbkdf2Iterations as nat);
  }

  /** A stored hash with more than three fields is read as its first three. */
  lemma ExtraFieldsIgnored(correctHash: string, tail: string, p: Primitives)
    requires |Split(correctHash, ':')| >= 3
    ensures ParseStoredHash(correctHash + ":" + tail, p) == ParseStoredHash(correctHash, p)
  {
    SplitAppend(correctHash, tail, ':');
    FieldsAfterThirdUnread(Split(correctHash, ':'), Split(tail, ':'), p);
  }

  /** What `ValidatePassword` returns or throws. */
  function Validation(password: string, correctHash: string, p: Primitives): Result<bool, CryptoError> {
    match ParseStoredHash(correctHash, p)
    case Failure(e) => Failure(e)
    case Success(stored) =>
      match GetPbkdf2Bytes(password, stored.salt, stored.iterations, |stored.hash|, p)
      case Failure(e) => Failure(e)
      case Success(testHash) => Success(stored.hash == testHash)
  }

  /** A password is accepted against the hash `HashPassword` made of it. */
  lemma HashThenValidate(password: string, rng: nat -> byte, p: Primitives)
    requires Sound(p)
    ensures Validation(password, HashPassword(password, rng, p), p) == Success(true)
  {
    ParseHashPassword(password, rng, p);
  }

  /** Another password is accepted exactly when PBKDF2 gives it the same 20 bytes under that salt. */
  lemma ValidateOtherPassword(password: string, other: string, rng: nat -> byte, p: Primitives)
    requires Sound(p)
    ensures var salt := PasswordSalt(rng);
      Validation(other, HashPassword(password, rng, p), p)
        == Success(PasswordHash(other, salt, p) == PasswordHash(password, salt, p))
  {
    ParseHashPassword(password, rng, p);
  }

  /**
   * `SlowEquals`: the lengths are xor-ed into `diff`, then the xor of each
   * pair of bytes in the common prefix is or-ed into it.
   */
  method SlowEquals(a: ByteArray, b: ByteArray) returns (equal: bool)
    ensures equal <==> a == b
  {
    var diff: nat := BitXor(|a|, |b|);
    BitXorZero(|a|, |b|);
    var i := 0;
    while i < |a| && i < |b|
      invariant 0 <= i <= |a| && 0 <= i <= |b|
      invariant diff == 0 <==> |a| == |b| && forall j :: 0 <= j < i ==> a[j] == b[j]
    {
      BitXorZero(a[i] as int, b[i] as int);
      ByteValueInjective(a[i], b[i]);
      BitOrZero(diff, BitXor(a[i] as int, b[i] as int));
      diff := BitOr(diff, BitXor(a[i] as int, b[i] as int));
      i := i + 1;
    }
    equal := diff == 0;
    if equal {
      assert |a| == |b| && i == |a|;
      assert a == b;
    }
  }

  /** Distinct bytes have distinct values. */
  lemma ByteValueInjective(x: byte, y: byte)
    ensures x as int == y as int ==> x == y
  {
    ByteValueRoundTrip(x);
    ByteValueRoundTrip(y);
  }

  lemma ByteValueRoundTrip(x: byte)
    ensures (x as int) as byte == x
  {
  }

  /** `ValidatePassword(password, correctHash)`. */
  method ValidatePassword(password: string, correctHash: string, p: Primitives)
    returns (r: Result<bool, CryptoError>)
    ensures r == Validation(password, correctHash, p)
  {
    var parsed := ParseStoredHash(correctHash, p);
    if parsed.Failure? {
      return Failure(parsed.error);
    }
    var stored := parsed.value;
    var derived := GetPbkdf2Bytes(password, stored.salt, stored.iterations, |stored.hash|, p);
    if derived.Failure? {
      return Failure(derived.error);
    }
    var equal := SlowEquals(stored.hash, derived.value);
    r := Success(equal);
  }

  // ------------------------------------------------------ cipher framing

  /** Salt, IV and ciphertext as `Decrypt` cuts them out of the decoded bytes. */
  datatype Frame = Frame(salt: seq<byte>, iv: seq<byte>, body: seq<byte>)

  /** The cut of `Decrypt`: `Take(32)`, `Skip(32).Take(32)`, `Skip(64).Take(n - 64)`. */
  function SplitFrame(bytes: seq<byte>): (f: Frame)
    ensures f.salt + f.iv + f.body == bytes
    ensures |bytes| >= 2 * EntropyByteSize ==> |f.salt| == |f.iv| == EntropyByteSize
    ensures |bytes| < 2 * EntropyByteSize ==> |f.iv| < EntropyByteSize && f.body == []
  {
    var n := KeyByteSize / 8;
    Frame(Take(bytes, n), Take(Skip(bytes, n), n), Take(Skip(bytes, n * 2), |bytes| - n * 2))
  }

  /** Cutting a salt ++ IV ++ ciphertext concatenation gives back its three parts. */
  lemma SplitFrameOfConcat(salt: seq<byte>, iv: seq<byte>, body: seq<byte>)
    requires |salt| == EntropyByteSize && |iv| == EntropyByteSize
    ensures SplitFrame(salt + iv + body) == Frame(salt, iv, body)
  {
    var f := SplitFrame(salt + iv + body);
    assert f.salt == (salt + iv + body)[..32] == salt;
    assert f.iv == (salt + iv + body)[32..64] == iv;
  }

  /**
   * `Encrypt`: Base64 of salt ++ IV ++ ciphertext, key from PBKDF2 over the
   * salt. The text decodes to a frame that `SplitFrame` cuts back into the
   * salt, the IV and the ciphertext.
   */
  function Encrypt(plainTextBytes: ByteArray, passPhrase: string, saltRng: nat -> byte, ivRng: nat -> byte, p: Primitives)
    : (cipherText: string)
    ensures var salt := RandomBytes(EntropyByteSize, saltRng);
      var iv := RandomBytes(EntropyByteSize, ivRng);
      var key := GetPbkdf2Bytes(passPhrase, salt, Pbkdf2Iterations, KeyByteSize / 8, p).value;
      Sound(p) && |plainTextBytes| + 3 * EntropyByteSize <= Int32Max ==>
        && p.fromBase64(cipherText).Some?
        && SplitFrame(p.fromBase64(cipherText).value) == Frame(salt, iv, p.encrypt(key, iv, plainTextBytes))
  {
    var salt := RandomBytes(EntropyByteSize, saltRng);
    var iv := RandomBytes(EntropyByteSize, ivRng);
    var key := GetPbkdf2Bytes(passPhrase, salt, Pbkdf2Iterations, KeyByteSize / 8, p).value;
    var body := p.encrypt(key, iv, plainTextBytes);
    SplitFrameOfConcat(salt, iv, body);
    p.toBase64(salt + iv + body)
  }

  /**
   * What one `CryptoStream.Read` of `size` bytes leaves in a fresh buffer
   * of that size when the stream yields `plain`.
   */
  function ReadInto(plain: seq<byte>, size: nat): (buffer: seq<byte>)
    ensures |buffer| == size
    ensures |plain| <= size ==> buffer[..|plain|] == plain
    ensures forall i :: |plain| <= i < size ==> buffer[i] == 0
  {
    var got := Take(plain, size);
    got + seq(size - |got|, _ => 0)
  }

  /** What `Decrypt` returns: the plaintext buffer and the `decryptedCount` out-argument. */
  datatype Decrypted = Decrypted(buffer: seq<byte>, count: int)

  /** `Decrypt(cipherText, passPhrase, out decryptedCount)`. */
  function Decrypt(cipherText: string, passPhrase: string, p: Primitives): (r: Result<Decrypted, CryptoError>)
    ensures p.fromBase64(cipherText).None? ==> r == Failure(FormatError)
    ensures r.Success? ==> 0 <= r.value.count <= |r.value.buffer|
    ensures r.Success? ==> |r.value.buffer| == |SplitFrame(p.fromBase64(cipherText).value).body|
    ensures r.Success? ==> forall i :: r.value.count <= i < |r.value.buffer| ==> r.value.buffer[i] == 0
  {
    match p.fromBase64(cipherText)
    case None => Failure(FormatError)
    case Some(bytes) =>
      var f := SplitFrame(bytes);
      match GetPbkdf2Bytes(passPhrase, f.salt, Pbkdf2Iterations, KeyByteSize / 8, p)
      case Failure(e) => Failure(e)
      case Success(key) =>
        if |f.iv| != EntropyByteSize then Failure(CryptographicError)
        else match p.decrypt(key, f.iv, f.body)
        case None => Failure(CryptographicError)
        case Some(plain) =>
          Success(Decrypted(ReadInto(plain, |f.body|), if |plain| < |f.body| then |plain| else |f.body|))
  }

  /** Input shorter than salt and IV together never decrypts. */
  lemma ShortInputRejected(cipherText: string, passPhrase: string, p: Primitives)
    requires p.fromBase64(cipherText).Some? && |p.fromBase64(cipherText).value| < 2 * EntropyByteSize
    ensures Decrypt(cipherText, passPhrase, p).Failure?
  {
  }

  /**
   * Decrypting what `Encrypt` produced gives the plaintext: its bytes lead
   * the buffer, the rest of the buffer is zero, and the count is its length.
   */
  lemma DecryptEncrypt(plain: ByteArray, passPhrase: string, saltRng: nat -> byte, ivRng: nat -> byte, p: Primitives)
    requires Sound(p)
    requires |plain| + 3 * EntropyByteSize <= Int32Max // the framed message is itself a byte[]
    ensures var r := Decrypt(Encrypt(plain, passPhrase, saltRng, ivRng, p), passPhrase, p);
      && r.Success?
      && r.value.count == |plain|
      && r.value.buffer[..|plain|] == plain
      && (forall i :: |plain| <= i < |r.value.buffer| ==> r.value.buffer[i] == 0)
  {
    var salt := RandomBytes(EntropyByteSize, saltRng);
    var iv := RandomBytes(EntropyByteSize, ivRng);
    var key := GetPbkdf2Bytes(passPhrase, salt, Pbkdf2Iterations, KeyByteSize / 8, p).value;
    assert p.decrypt(key, iv, p.encrypt(key, iv, plain)) == Some(plain);
  }

  // ----------------------------------------------------------- MD5 text

  function HexDigit(n: nat): (c: char)
    requires n < 16
    ensures c in "0123456789abcdef"
  {
    "0123456789abcdef"[n]
  }

  /** `b.ToString("x2")`: two lower-case hex digits, high nibble first. */
  function ByteHex(b: byte): (s: string)
    ensures |s| == 2
  {
    [HexDigit(b as int / 16), HexDigit(b as int % 16)]
  }

  /** The bytes rendered one after another as `ToString("x2")` does. */
  function LowerHex(data: seq<byte>): (s: string)
    ensures |s| == 2 * |data|
    decreases |data|
  {
    if |data| == 0 then "" else LowerHex(data[..|data| - 1]) + ByteHex(data[|data| - 1])
  }

  /** Byte `i` is rendered at characters `2i` and `2i + 1`. */
  lemma {:induction false} LowerHexAt(data: seq<byte>, i: nat)
    requires i < |data|
    ensures LowerHex(data)[2 * i..2 * i + 2] == ByteHex(data[i])
    decreases |data|
  {
    if i < |data| - 1 {
      LowerHexAt(data[..|data| - 1], i);
      assert data[..|data| - 1][i] == data[i];
    }
  }

  function HexValue(c: char): Option<nat> {
    if '0' <= c <= '9' then Some(c as int - '0' as int)
    else if 'a' <= c <= 'f' then Some(c as int - 'a' as int + 10)
    else None
  }

  /** Reads lower-case hex text back into bytes. */
  function ParseHex(s: string): Option<seq<byte>>
    decreases |s|
  {
    if |s| == 0 then Some([])
    else if |s| < 2 then None
    else
      match (ParseHex(s[..|s| - 2]), HexValue(s[|s| - 2]), HexValue(s[|s| - 1]))
      case (Some(prefix), Some(hi), Some(lo)) =>
        if hi * 16 + lo < 256 then Some(prefix + [(hi * 16 + lo) as byte]) else None
      case _ => None
  }

  /** The hex rendering loses nothing: it parses back to the digest. */
  lemma {:induction false} ParseLowerHex(data: seq<byte>)
    ensures ParseHex(LowerHex(data)) == Some(data)
    decreases |data|
  {
    if |data| > 0 {
      var init, last := data[..|data| - 1], data[|data| - 1];
      var t := LowerHex(init);
      assert LowerHex(data) == t + ByteHex(last);
      ParseLowerHex(init);
      ParseHexStep(t, last);
      InitLast(data);
    }
  }

  /** A non-empty sequence is its init followed by its last element. */
  lemma InitLast<T>(s: seq<T>)
    requires |s| > 0
    ensures s[..|s| - 1] + [s[|s| - 1]] == s
  {
  }

  /** Appending the two digits of a byte to parsable text appends that byte to what it parses to. */
  lemma ParseHexStep(t: string, b: byte)
    ensures ParseHex(t + ByteHex(b)) == if ParseHex(t).Some? then Some(ParseHex(t).value + [b]) else None
  {
    var s := t + ByteHex(b);
    assert s[..|s| - 2] == t;
    assert s[|s| - 2] == ByteHex(b)[0] && s[|s| - 1] == ByteHex(b)[1];
    ByteHexDigits(b);
  }

  /** The two digits of a byte read back as its high and low nibble, which recombine into it. */
  lemma ByteHexDigits(b: byte)
    ensures HexValue(ByteHex(b)[0]) == Some(b as int / 16)
    ensures HexValue(ByteHex(b)[1]) == Some(b as int % 16)
    ensures b as int / 16 * 16 + b as int % 16 < 256
    ensures (b as int / 16 * 16 + b as int % 16) as byte == b
  {
    var n := b as int;
    HexDigitValue(n / 16);
    HexDigitValue(n % 16);
    assert n / 16 * 16 + n % 16 == n;
  }

  lemma HexDigitValue(n: nat)
    requires n < 16
    ensures HexValue(HexDigit(n)) == Some(n)
  {
  }

  /** The rendering loop of `GetMD5Hash`: append each digest byte as two hex digits. */
  method HexDigest(data: seq<byte>) returns (hash: string)
    ensures hash == LowerHex(data)
  {
    hash := "";
    var index := 0;
    while index < |data|
      invariant 0 <= index <= |data|
      invariant hash == LowerHex(data[..index])
    {
      assert data[..index + 1][..index] == data[..index];
      hash := hash + ByteHex(data[index]);
      index := index + 1;
    }
    assert data[..index] == data;
  }

  /** `GetMD5Hash(string)`: the digest of the text's bytes in the default encoding. */
  method GetMD5HashOfString(source: string, p: Primitives) returns (hash: string)
    ensures hash == LowerHex(p.md5(p.encodeDefault(source)))
    ensures Sound(p) ==> |hash| == 2 * Md5DigestSize
  {
    hash := HexDigest(p.md5(p.encodeDefault(source)));
  }

  /** `GetMD5Hash(byte[])`. */
  method GetMD5HashOfBytes(source: ByteArray, p: Primitives) returns (hash: string)
    ensures hash == LowerHex(p.md5(source))
    ensures Sound(p) ==> |hash| == 2 * Md5DigestSize
  {
    hash := HexDigest(p.md5(source));
  }
}
