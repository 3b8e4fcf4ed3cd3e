/** The aezeed cipher seed: encoding, enciphering, and the way to a mnemonic and back. */
module CipherSeed {
  import opened Options
  import opened Bytes
  import opened Mnemonics

  const VERSION: byte := 0
  const ENTROPY_SIZE: nat := 16
  const SALT_SIZE: nat := 5
  const PLAIN_SIZE: nat := 19
  const EXPANSION: nat := 4
  const SALT_OFFSET: nat := 24
  const CHECKSUM_OFFSET: nat := 29

  type uint16 = x: int | 0 <= x < 0x1_0000
  type uint32 = x: int | 0 <= x < 0x1_0000_0000

  datatype Error =
    | IncorrectVersion
    | IncorrectMnemonic
    | InvalidPass
    | UnknownWord(word: string, index: nat)

  datatype Result<+T> = Ok(value: T) | Err(error: Error)

  /** scrypt, aez and CRC-32C, of which only the inverse law and the sizes matter. */
  datatype Crypto = Crypto(
    kdf: (seq<byte>, seq<byte>) -> seq<byte>,
    encrypt: (seq<byte>, seq<byte>, seq<byte>) -> seq<byte>,
    decrypt: (seq<byte>, seq<byte>, seq<byte>) -> Option<seq<byte>>,
    crc: seq<byte> -> uint32)

  ghost predicate Lawful(c: Crypto) {
    && (forall key, ad, plain :: |c.encrypt(key, ad, plain)| == |plain| + EXPANSION)
    && (forall key, ad, plain :: c.decrypt(key, ad, c.encrypt(key, ad, plain)) == Some(plain))
    && (forall key, ad, text :: c.decrypt(key, ad, text).Some? ==>
          |c.decrypt(key, ad, text).value| + EXPANSION == |text|)
  }

  datatype Seed = Seed(internalVersion: byte, birthday: uint16, entropy: seq<byte>, salt: seq<byte>)

  predicate Sized(s: Seed) {
    |s.entropy| == ENTROPY_SIZE && |s.salt| == SALT_SIZE
  }

  function BigEndian16(x: uint16): (r: seq<byte>) {
    [x / 256, x % 256]
  }

  function FromBigEndian16(high: int, low: int): (x: int)
    ensures 0 <= high < 256 && 0 <= low < 256 ==> 0 <= x < 0x1_0000
  {
    high * 256 + low
  }

  function BigEndian32(x: uint32): (r: seq<byte>)
    ensures |r| == 4
  {
    [x / 0x100_0000, x / 0x1_0000 % 256, x / 0x100 % 256, x % 256]
  }

  function ZeroSalt(): seq<byte> { seq(SALT_SIZE, _ => 0) }

  /** encode: version, birthday, entropy. */
  function Encode(s: Seed): seq<byte> {
    [s.internalVersion] + BigEndian16(s.birthday) + s.entropy
  }

  /** decode into a fresh CipherSeed: the salt is not part of the plain text and stays zero. */
  function Decode(plain: seq<byte>): (s: Seed)
    requires |plain| == PLAIN_SIZE
    ensures Sized(s)
  {
    Seed(plain[0], FromBigEndian16(plain[1], plain[2]), plain[3..], ZeroSalt())
  }

  /** The seed without its salt. */
  function Unsalted(s: Seed): Seed {
    s.(salt := ZeroSalt())
  }

  lemma DecodeEncode(s: Seed)
    requires Sized(s)
    ensures |Encode(s)| == PLAIN_SIZE && Decode(Encode(s)) == Unsalted(s)
  {
    assert Encode(s)[3..] == s.entropy;
  }

  lemma EncodeDecode(plain: seq<byte>)
    requires |plain| == PLAIN_SIZE
    ensures Encode(Decode(plain)) == plain
  {
    assert plain == [plain[0]] + [plain[1], plain[2]] + plain[3..];
  }

  /** The plain text of a seed: its version, its birthday with the high byte first, its entropy. */
  ghost predicate PlainText(s: Seed, plain: seq<byte>) {
    && |plain| == PLAIN_SIZE && plain[0] == s.internalVersion
    && 256 * (plain[1] as int) + plain[2] as int == s.birthday && plain[3..] == s.entropy
  }

  lemma EncodeIff(s: Seed, plain: seq<byte>)
    requires Sized(s)
    ensures plain == Encode(s) <==> PlainText(s, plain)
  {
    DecodeEncode(s);
    assert Encode(s)[3..] == s.entropy;
    if PlainText(s, plain) { EncodeDecode(plain); }
  }

  /** An empty passphrase stands for "aezeed". */
  function Passphrase(pass: seq<byte>): seq<byte> {
    if pass == [] then [97, 101, 122, 101, 101, 100] else pass
  }

  function EncodeAD(version: byte, salt: seq<byte>): seq<byte> {
    [version] + salt
  }

  function ExtractAD(enciphered: seq<byte>): seq<byte>
    requires |enciphered| == ENCIPHERED_SIZE
  {
    [enciphered[0]] + enciphered[SALT_OFFSET..CHECKSUM_OFFSET]
  }

  function CipherText(c: Crypto, s: Seed, pass: seq<byte>): seq<byte> {
    c.encrypt(c.kdf(Passphrase(pass), s.salt), EncodeAD(VERSION, s.salt), Encode(s))
  }

  /** The enciphered seed without its checksum. */
  function Body(c: Crypto, s: Seed, pass: seq<byte>): seq<byte> {
    [VERSION] + CipherText(c, s, pass) + s.salt
  }

  /** encipher: version, cipher text, salt, checksum. */
  function Enciphered(c: Crypto, s: Seed, pass: seq<byte>): seq<byte> {
    Body(c, s, pass) + BigEndian32(c.crc(Body(c, s, pass)))
  }

  ghost function Number32(b0: int, b1: int, b2: int, b3: int): int {
    b0 * 0x100_0000 + b1 * 0x1_0000 + b2 * 0x100 + b3
  }

  /** The last four bytes are the checksum of those before them, with the high byte first. */
  ghost predicate ChecksumRight(c: Crypto, e: seq<byte>)
    requires |e| == ENCIPHERED_SIZE
  {
    Number32(e[29], e[30], e[31], e[32]) == c.crc(e[..29])
  }

  /** The key for a passphrase and a salt. */
  ghost predicate IsKey(c: Crypto, pass: seq<byte>, salt: seq<byte>, key: seq<byte>) {
    if pass == [] then key == c.kdf([97, 101, 122, 101, 101, 100], salt) else key == c.kdf(pass, salt)
  }

  /** What an enciphered seed is: version 0, the plain text encrypted under the passphrase with version and salt as
      associated data, the salt, and a right checksum. */
  ghost predicate Enciphers(c: Crypto, s: Seed, pass: seq<byte>, e: seq<byte>) {
    && |e| == 33 && e[0] == 0 && e[24..29] == s.salt && ChecksumRight(c, e)
    && exists key, plain :: IsKey(c, pass, s.salt, key) && PlainText(s, plain)
         && e[1..24] == c.encrypt(key, [0] + s.salt, plain)
  }

  lemma BigEndianIff(x: uint32, b: seq<byte>)
    requires |b| == 4
    ensures b == BigEndian32(x) <==> Number32(b[0], b[1], b[2], b[3]) == x
  {
    Digits(x);
    var r := BigEndian32(x);
    if Number32(b[0], b[1], b[2], b[3]) == x {
      assert b[0] == r[0] && b[1] == r[1] && b[2] == r[2] && b[3] == r[3];
    }
  }

  lemma Digits(x: uint32)
    ensures x / 0x100_0000 * 0x100_0000 + x / 0x1_0000 % 256 * 0x1_0000 + x / 0x100 % 256 * 0x100 + x % 256 == x
  {
    assert x / 0x1_0000 == x / 0x100 / 256 && x / 0x100_0000 == x / 0x1_0000 / 256;
  }

  lemma ChecksumIff(c: Crypto, e: seq<byte>)
    requires |e| == ENCIPHERED_SIZE
    ensures BigEndian32(c.crc(e[..CHECKSUM_OFFSET])) == e[CHECKSUM_OFFSET..] <==> ChecksumRight(c, e)
  {
    BigEndianIff(c.crc(e[..CHECKSUM_OFFSET]), e[CHECKSUM_OFFSET..]);
  }

  lemma BodySize(c: Crypto, s: Seed, pass: seq<byte>)
    requires Lawful(c) && Sized(s)
    ensures |CipherText(c, s, pass)| == 23 && |Body(c, s, pass)| == CHECKSUM_OFFSET
    ensures |Enciphered(c, s, pass)| == ENCIPHERED_SIZE
  {
    DecodeEncode(s);
  }

  lemma EncipheredParts(c: Crypto, s: Seed, pass: seq<byte>)
    requires Lawful(c) && Sized(s)
    ensures var e := Enciphered(c, s, pass);
      && |e| == ENCIPHERED_SIZE && e[0] == VERSION
      && e[1..SALT_OFFSET] == CipherText(c, s, pass)
      && e[SALT_OFFSET..CHECKSUM_OFFSET] == s.salt
      && e[..CHECKSUM_OFFSET] == Body(c, s, pass)
      && e[CHECKSUM_OFFSET..] == BigEndian32(c.crc(Body(c, s, pass)))
      && ExtractAD(e) == EncodeAD(VERSION, s.salt)
  {
    BodySize(c, s, pass);
  }

  /** There is exactly one enciphered seed for a seed and a passphrase, and encipher computes it. */
  lemma EncipheredIff(c: Crypto, s: Seed, pass: seq<byte>, e: seq<byte>)
    requires Lawful(c) && Sized(s)
    ensures e == Enciphered(c, s, pass) <==> Enciphers(c, s, pass, e)
  {
    EncipheredParts(c, s, pass);
    EncodeIff(s, Encode(s));
    var key := c.kdf(Passphrase(pass), s.salt);
    assert IsKey(c, pass, s.salt, key);
    ChecksumIff(c, Enciphered(c, s, pass));
    if Enciphers(c, s, pass, e) {
      var key', plain :| IsKey(c, pass, s.salt, key') && PlainText(s, plain)
        && e[1..24] == c.encrypt(key', [0] + s.salt, plain);
      EncodeIff(s, plain);
      ChecksumIff(c, e);
      assert e[..29] == [e[0]] + e[1..24] + e[24..29];
      assert e == e[..29] + e[29..];
    }
  }

  /** encipher as it fills its buffer. */
  method Encipher(c: Crypto, s: Seed, pass: seq<byte>) returns (r: seq<byte>)
    requires Lawful(c) && Sized(s)
    ensures r == Enciphered(c, s, pass) && Enciphers(c, s, pass, r)
  {
    r := FillBuffer(c, s, pass);
    EncipheredIff(c, s, pass, r);
  }

  method FillBuffer(c: Crypto, s: Seed, pass: seq<byte>) returns (r: seq<byte>)
    requires Lawful(c) && Sized(s)
    ensures r == Enciphered(c, s, pass)
  {
    DecodeEncode(s);
    var buf := new byte[ENCIPHERED_SIZE](_ => 0);
    var text := CipherText(c, s, pass);
    buf[0] := VERSION;
    forall i | 0 <= i < |text| { buf[1 + i] := text[i]; }
    forall i | 0 <= i < SALT_SIZE { buf[SALT_OFFSET + i] := s.salt[i]; }
    assert buf[..CHECKSUM_OFFSET] == Body(c, s, pass);
    var sum := BigEndian32(c.crc(buf[..CHECKSUM_OFFSET]));
    forall i | 0 <= i < 4 { buf[CHECKSUM_OFFSET + i] := sum[i]; }
    r := buf[..];
    assert r[..CHECKSUM_OFFSET] == Body(c, s, pass);
    assert r == r[..CHECKSUM_OFFSET] + sum;
  }

  /** decipherCipherSeed. */
  function Deciphered(c: Crypto, e: seq<byte>, passphrase: seq<byte>): Result<seq<byte>>
    requires |e| == ENCIPHERED_SIZE
  {
    if e[0] != VERSION then Err(IncorrectVersion)
    else if BigEndian32(c.crc(e[..CHECKSUM_OFFSET])) != e[CHECKSUM_OFFSET..] then Err(IncorrectMnemonic)
    else
      match c.decrypt(c.kdf(passphrase, e[SALT_OFFSET..CHECKSUM_OFFSET]), ExtractAD(e), e[1..SALT_OFFSET])
      case None => Err(InvalidPass)
      case Some(plain) => Ok(plain)
  }

  /** What deciphering reports: the version is looked at first, then the checksum, then the passphrase. */
  ghost predicate Deciphers(c: Crypto, e: seq<byte>, key: seq<byte>, r: Result<seq<byte>>)
    requires |e| == ENCIPHERED_SIZE
  {
    && (r == Err(IncorrectVersion) <==> e[0] != 0)
    && (r == Err(IncorrectMnemonic) <==> e[0] == 0 && !ChecksumRight(c, e))
    && (r == Err(InvalidPass) <==> e[0] == 0 && ChecksumRight(c, e) && c.decrypt(key, [0] + e[24..29], e[1..24]).None?)
    && (r.Ok? <==> e[0] == 0 && ChecksumRight(c, e) && c.decrypt(key, [0] + e[24..29], e[1..24]).Some?)
    && (r.Ok? ==> c.decrypt(key, [0] + e[24..29], e[1..24]) == Some(r.value))
  }

  lemma DecipheredIs(c: Crypto, e: seq<byte>, passphrase: seq<byte>)
    requires |e| == ENCIPHERED_SIZE
    ensures Deciphers(c, e, c.kdf(passphrase, e[24..29]), Deciphered(c, e, passphrase))
  {
    ChecksumIff(c, e);
  }

  lemma DecipherSize(c: Crypto, e: seq<byte>, passphrase: seq<byte>)
    requires Lawful(c) && |e| == ENCIPHERED_SIZE
    ensures Deciphered(c, e, passphrase).Ok? ==> |Deciphered(c, e, passphrase).value| == PLAIN_SIZE
  {}

  /** Deciphering undoes enciphering under the same passphrase. */
  lemma DecipherEncipher(c: Crypto, s: Seed, pass: seq<byte>)
    requires Lawful(c) && Sized(s)
    ensures |Enciphered(c, s, pass)| == ENCIPHERED_SIZE
    ensures Deciphered(c, Enciphered(c, s, pass), Passphrase(pass)) == Ok(Encode(s))
  {
    EncipheredParts(c, s, pass);
  }

  // ----- mnemonics

  /** A word list with its reverse map. */
  datatype Dictionary = Dictionary(words: seq<string>, rev: map<string, nat>)

  ghost predicate Sound(d: Dictionary) {
    WordList(d.words) && Reverses(d.words, d.rev)
  }

  /** The index of the first word that is not in the dictionary, or the number of words. */
  function FirstUnknown(d: Dictionary, mnemonic: seq<string>, from: nat): nat
    requires from <= |mnemonic|
    decreases |mnemonic| - from
  {
    if from == |mnemonic| || mnemonic[from] !in d.rev then from else FirstUnknown(d, mnemonic, from + 1)
  }

  /** Mnemonic.Decipher. */
  ghost function Decipher(c: Crypto, d: Dictionary, mnemonic: seq<string>, pass: seq<byte>): Result<seq<byte>>
    requires Sound(d) && |mnemonic| == NUM_WORDS
  {
    var i := FirstUnknown(d, mnemonic, 0);
    if i < |mnemonic| then Err(UnknownWord(mnemonic[i], i))
    else Deciphered(c, CipherTextOf(d.rev, mnemonic), Passphrase(pass))
  }

  /** Mnemonic.ToCipherSeed. */
  ghost function ToCipherSeed(c: Crypto, d: Dictionary, mnemonic: seq<string>, pass: seq<byte>): Result<Seed>
    requires Lawful(c) && Sound(d) && |mnemonic| == NUM_WORDS
  {
    match Decipher(c, d, mnemonic, pass)
    case Err(e) => Err(e)
    case Ok(plain) => DecipherSize(c, CipherTextOf(d.rev, mnemonic), Passphrase(pass)); Ok(Decode(plain))
  }

  /** mnemonic is what CipherSeed.ToMnemonic returns. */
  ghost predicate ToMnemonic(c: Crypto, d: Dictionary, s: Seed, pass: seq<byte>, mnemonic: seq<string>) {
    Spells(d.words, Enciphered(c, s, pass), mnemonic)
  }

  lemma {:induction false} AllKnown(d: Dictionary, mnemonic: seq<string>, from: nat)
    requires from <= |mnemonic|
    ensures FirstUnknown(d, mnemonic, from) == |mnemonic|
       <==> forall i :: from <= i < |mnemonic| ==> mnemonic[i] in d.rev
    decreases |mnemonic| - from
  {
    if from < |mnemonic| && mnemonic[from] in d.rev { AllKnown(d, mnemonic, from + 1); }
  }

  /** From seed to mnemonic and back, under the same passphrase: version, birthday and entropy are
      recovered, and the salt is not. */
  lemma MnemonicRoundTrip(c: Crypto, d: Dictionary, s: Seed, pass: seq<byte>, mnemonic: seq<string>)
    requires Lawful(c) && Sound(d) && Sized(s) && ToMnemonic(c, d, s, pass, mnemonic)
    ensures ToCipherSeed(c, d, mnemonic, pass) == Ok(Unsalted(s))
  {
    SpelledBack(d.words, d.rev, Enciphered(c, s, pass), mnemonic);
    AllKnown(d, mnemonic, 0);
    DecipherEncipher(c, s, pass);
    DecodeEncode(s);
  }

  /** A seed enciphered without a passphrase opens under "aezeed", and the other way round. */
  lemma EmptyPassphrase(c: Crypto, d: Dictionary, s: Seed, pass: seq<byte>, other: seq<byte>, mnemonic: seq<string>)
    requires Lawful(c) && Sound(d) && Sized(s) && ToMnemonic(c, d, s, pass, mnemonic)
    requires pass in {[], [97, 101, 122, 101, 101, 100]} && other in {[], [97, 101, 122, 101, 101, 100]}
    ensures ToCipherSeed(c, d, mnemonic, other) == Ok(Unsalted(s))
  {
    assert Passphrase(pass) == Passphrase(other);
    MnemonicRoundTrip(c, d, s, pass, mnemonic);
  }

  /** changed is what ChangePass returns when the old passphrase is right. */
  ghost predicate ChangePass(c: Crypto, d: Dictionary, mnemonic: seq<string>, oldPass: seq<byte>, newPass: seq<byte>,
                             changed: seq<string>)
    requires Lawful(c) && Sound(d) && |mnemonic| == NUM_WORDS
  {
    && ToCipherSeed(c, d, mnemonic, oldPass).Ok?
    && ToMnemonic(c, d, ToCipherSeed(c, d, mnemonic, oldPass).value, newPass, changed)
  }

  /** Changing the passphrase preserves the seed, whatever mnemonic one starts from. */
  lemma ChangePassPreserves(c: Crypto, d: Dictionary, mnemonic: seq<string>, oldPass: seq<byte>, newPass: seq<byte>,
                            changed: seq<string>)
    requires Lawful(c) && Sound(d) && |mnemonic| == NUM_WORDS
    requires ChangePass(c, d, mnemonic, oldPass, newPass, changed)
    ensures |changed| == NUM_WORDS
    ensures ToCipherSeed(c, d, changed, newPass) == ToCipherSeed(c, d, mnemonic, oldPass)
  {
    DecipherSize(c, CipherTextOf(d.rev, mnemonic), Passphrase(oldPass));
    MnemonicRoundTrip(c, d, ToCipherSeed(c, d, mnemonic, oldPass).value, newPass, changed);
  }

  lemma OpenedUnsalted(c: Crypto, d: Dictionary, mnemonic: seq<string>, pass: seq<byte>)
    requires Lawful(c) && Sound(d) && |mnemonic| == NUM_WORDS && ToCipherSeed(c, d, mnemonic, pass).Ok?
    ensures var s := ToCipherSeed(c, d, mnemonic, pass).value; Sized(s) && s.salt == ZeroSalt()
  {
    DecipherSize(c, CipherTextOf(d.rev, mnemonic), Passphrase(pass));
  }

  /** The new mnemonic always carries the zero salt, whatever the salt of the old one. */
  lemma ChangePassForgetsSalt(c: Crypto, d: Dictionary, mnemonic: seq<string>, oldPass: seq<byte>, newPass: seq<byte>,
                              changed: seq<string>)
    requires Lawful(c) && Sound(d) && |mnemonic| == NUM_WORDS
    requires ChangePass(c, d, mnemonic, oldPass, newPass, changed)
    ensures |changed| == NUM_WORDS && CipherTextOf(d.rev, changed)[SALT_OFFSET..CHECKSUM_OFFSET] == ZeroSalt()
  {
    OpenedUnsalted(c, d, mnemonic, oldPass);
    var s := ToCipherSeed(c, d, mnemonic, oldPass).value;
    EncipheredParts(c, s, newPass);
    SpelledBack(d.words, d.rev, Enciphered(c, s, newPass), changed);
  }

  /** So it is determined by the new passphrase and the version, birthday and entropy alone. */
  lemma ChangePassDetermined(c: Crypto, d: Dictionary, m1: seq<string>, old1: seq<byte>, m2: seq<string>,
                             old2: seq<byte>, newPass: seq<byte>, changed1: seq<string>, changed2: seq<string>)
    requires Lawful(c) && Sound(d) && |m1| == |m2| == NUM_WORDS
    requires ChangePass(c, d, m1, old1, newPass, changed1) && ChangePass(c, d, m2, old2, newPass, changed2)
    requires var s1, s2 := ToCipherSeed(c, d, m1, old1).value, ToCipherSeed(c, d, m2, old2).value;
      s1.internalVersion == s2.internalVersion && s1.birthday == s2.birthday && s1.entropy == s2.entropy
    ensures changed1 == changed2
  {
    OpenedUnsalted(c, d, m1, old1);
    OpenedUnsalted(c, d, m2, old2);
    SpelledOnce(d.words, Enciphered(c, ToCipherSeed(c, d, m1, old1).value, newPass), changed1, changed2);
  }

  lemma SpelledOnce(words: seq<string>, text: seq<byte>, m1: seq<string>, m2: seq<string>)
    requires Spells(words, text, m1) && Spells(words, text, m2)
    ensures m1 == m2
  {
  }

  // ----- the operations as methods

  method MakeMnemonic(c: Crypto, d: Dictionary, s: Seed, pass: seq<byte>) returns (mnemonic: seq<string>)
    requires Lawful(c) && Sound(d) && Sized(s)
    ensures ToMnemonic(c, d, s, pass, mnemonic)
    ensures exists e :: Enciphers(c, s, pass, e) && Spells(d.words, e, mnemonic)
  {
    EncipheredParts(c, s, pass);
    var text := Encipher(c, s, pass);
    mnemonic := CipherTextToMnemonic(d.words, text);
  }

  /** The first word that is not in the list. */
  ghost predicate FirstMissing(words: seq<string>, mnemonic: seq<string>, i: nat) {
    i < |mnemonic| && mnemonic[i] !in words && forall j :: 0 <= j < i ==> mnemonic[j] in words
  }

  /** What Mnemonic.Decipher reports: an unknown word before anything else, and otherwise what comes of the cipher
      text that the words spell. */
  ghost predicate Opens(c: Crypto, d: Dictionary, mnemonic: seq<string>, pass: seq<byte>, r: Result<seq<byte>>) {
    && (forall i: nat :: FirstMissing(d.words, mnemonic, i) ==> r == Err(UnknownWord(mnemonic[i], i)))
    && (forall e, key :: Spells(d.words, e, mnemonic) && IsKey(c, pass, e[24..29], key) ==> Deciphers(c, e, key, r))
  }

  lemma {:induction false} FirstUnknownIs(d: Dictionary, mnemonic: seq<string>, from: nat, i: nat)
    requires Sound(d) && from <= i && FirstMissing(d.words, mnemonic, i)
    ensures FirstUnknown(d, mnemonic, from) == i
    decreases i - from
  {
    if from < i { FirstUnknownIs(d, mnemonic, from + 1, i); }
  }

  lemma SpelledOpens(c: Crypto, d: Dictionary, mnemonic: seq<string>, pass: seq<byte>, e: seq<byte>, key: seq<byte>)
    requires Sound(d) && |mnemonic| == NUM_WORDS && Spells(d.words, e, mnemonic) && IsKey(c, pass, e[24..29], key)
    ensures Deciphers(c, e, key, Decipher(c, d, mnemonic, pass))
  {
    SpelledBack(d.words, d.rev, e, mnemonic);
    AllKnown(d, mnemonic, 0);
    DecipheredIs(c, e, Passphrase(pass));
  }

  /** Every mnemonic of 24 words has an unknown word or spells a cipher text, and so has exactly one outcome. */
  lemma OpensIs(c: Crypto, d: Dictionary, mnemonic: seq<string>, pass: seq<byte>)
    requires Sound(d) && |mnemonic| == NUM_WORDS
    ensures Opens(c, d, mnemonic, pass, Decipher(c, d, mnemonic, pass))
    ensures (exists i: nat :: FirstMissing(d.words, mnemonic, i)) || (exists e :: Spells(d.words, e, mnemonic))
  {
    forall i: nat | FirstMissing(d.words, mnemonic, i)
      ensures Decipher(c, d, mnemonic, pass) == Err(UnknownWord(mnemonic[i], i))
    {
      FirstUnknownIs(d, mnemonic, 0, i);
    }
    forall e, key | Spells(d.words, e, mnemonic) && IsKey(c, pass, e[24..29], key)
      ensures Deciphers(c, e, key, Decipher(c, d, mnemonic, pass))
    {
      SpelledOpens(c, d, mnemonic, pass, e, key);
    }
    MissingOrSpelled(d, mnemonic);
  }

  lemma MissingOrSpelled(d: Dictionary, mnemonic: seq<string>)
    requires Sound(d) && |mnemonic| == NUM_WORDS
    ensures (exists i: nat :: FirstMissing(d.words, mnemonic, i)) || (exists e :: Spells(d.words, e, mnemonic))
  {
    AllKnown(d, mnemonic, 0);
    if FirstUnknown(d, mnemonic, 0) == |mnemonic| {
      SpelledForth(d.words, d.rev, mnemonic);
    } else {
      UnknownIsMissing(d, mnemonic, 0);
    }
  }

  lemma {:induction false} UnknownIsMissing(d: Dictionary, mnemonic: seq<string>, from: nat)
    requires Sound(d) && from <= |mnemonic| && FirstUnknown(d, mnemonic, from) != |mnemonic|
    requires forall j :: 0 <= j < from ==> mnemonic[j] in d.words
    ensures FirstMissing(d.words, mnemonic, FirstUnknown(d, mnemonic, from))
    decreases |mnemonic| - from
  {
    if mnemonic[from] in d.rev { UnknownIsMissing(d, mnemonic, from + 1); }
  }

  /** Mnemonic.Decipher, with the check of every word before anything else. */
  method DecipherMnemonic(c: Crypto, d: Dictionary, mnemonic: seq<string>, pass: seq<byte>)
    returns (r: Result<seq<byte>>)
    requires Sound(d) && |mnemonic| == NUM_WORDS
    ensures r == Decipher(c, d, mnemonic, pass) && Opens(c, d, mnemonic, pass, r)
  {
    r := CheckAndDecipher(c, d, mnemonic, pass);
    OpensIs(c, d, mnemonic, pass);
  }

  method CheckAndDecipher(c: Crypto, d: Dictionary, mnemonic: seq<string>, pass: seq<byte>)
    returns (r: Result<seq<byte>>)
    requires Sound(d) && |mnemonic| == NUM_WORDS
    ensures r == Decipher(c, d, mnemonic, pass)
  {
    for i := 0 to |mnemonic|
      invariant FirstUnknown(d, mnemonic, 0) == FirstUnknown(d, mnemonic, i)
    {
      if mnemonic[i] !in d.rev {
        return Err(UnknownWord(mnemonic[i], i));
      }
    }
    var text := MnemonicToCipherText(d.rev, mnemonic);
    r := Deciphered(c, text, Passphrase(pass));
  }

  method MakeCipherSeed(c: Crypto, d: Dictionary, mnemonic: seq<string>, pass: seq<byte>) returns (r: Result<Seed>)
    requires Lawful(c) && Sound(d) && |mnemonic| == NUM_WORDS
    ensures r == ToCipherSeed(c, d, mnemonic, pass)
    ensures r.Ok? ==> exists plain :: Opens(c, d, mnemonic, pass, Ok(plain)) && PlainText(r.value, plain)
    ensures r.Err? ==> Opens(c, d, mnemonic, pass, Err(r.error))
  {
    var plain := DecipherMnemonic(c, d, mnemonic, pass);
    if plain.Err? { return Err(plain.error); }
    DecipherSize(c, CipherTextOf(d.rev, mnemonic), Passphrase(pass));
    r := Ok(Decode(plain.value));
    assert PlainText(r.value, plain.value);
  }

  method ChangePassphrase(c: Crypto, d: Dictionary, mnemonic: seq<string>, oldPass: seq<byte>, newPass: seq<byte>)
    returns (r: Result<seq<string>>)
    requires Lawful(c) && Sound(d) && |mnemonic| == NUM_WORDS
    ensures r.Ok? <==> ToCipherSeed(c, d, mnemonic, oldPass).Ok?
    ensures r.Ok? ==> ChangePass(c, d, mnemonic, oldPass, newPass, r.value)
    ensures r.Err? ==> ToCipherSeed(c, d, mnemonic, oldPass) == Err(r.error)
  {
    var seed := MakeCipherSeed(c, d, mnemonic, oldPass);
    if seed.Err? { return Err(seed.error); }
    DecipherSize(c, CipherTextOf(d.rev, mnemonic), Passphrase(oldPass));
    var changed := MakeMnemonic(c, d, seed.value, newPass);
    r := Ok(changed);
  }
}
