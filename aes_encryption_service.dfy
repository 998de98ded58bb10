/**
 * `AESEncryptionService` (Services/AESEncryptionService.swift): AES-GCM
 * encryption of a text under a text key, the sealed box carried as base64.
 */
module AESEncryptionService {
  import opened Wrappers
  import opened Utf8
  import opened Crypto
  import opened DataPadWithZeros

  /** The default `keySize` of `encrypt` and `decrypt`, in bytes. */
  const DefaultKeySize: nat := 32

  /** The key lengths AES accepts; CryptoKit throws on any other. */
  predicate IsAesKeySize(n: int)
  {
    n == 16 || n == 24 || n == 32
  }

  /** `Data.prefix(n)`: the first `n` bytes, or all of them when fewer. */
  function Prefix(b: Bytes, n: nat): (r: Bytes)
    ensures |r| == if |b| < n then |b| else n
    ensures r == b[..|r|]
  {
    if |b| <= n then b else b[..n]
  }

  /**
   * The bytes of the symmetric key: the key's UTF-8 form cut to `keySize`
   * bytes and padded with zeros to exactly `keySize`. Encryption and
   * decryption both derive their key this way.
   */
  function SymmetricKeyData(key: string, keySize: nat): (k: Bytes)
    ensures |k| == keySize
    ensures forall i :: 0 <= i < keySize ==> k[i] == (if i < |Encode(key)| then Encode(key)[i] else 0)
  {
    var keyData := Prefix(Encode(key), keySize);
    var r := ZeroPadded(keyData, keySize);
    assert forall i :: 0 <= i < |keyData| ==> r[i] == r[..|keyData|][i];
    r
  }

  /**
   * `encrypt(plainText:key:keySize:)` with the nonce it draws given as a
   * parameter: None exactly when sealing throws, i.e. for a key size AES
   * does not accept.
   */
  function Encrypt(p: Primitives, plainText: string, key: string, nonce: Bytes, keySize: nat := DefaultKeySize): (r: Option<string>)
    ensures r.Some? <==> IsAesKeySize(keySize)
  {
    var data := Encode(plainText);
    var symmetricKey := SymmetricKeyData(key, keySize);
    if IsAesKeySize(keySize) then Some(p.base64(p.seal(symmetricKey, nonce, data))) else None
  }

  /**
   * `decrypt(encryptedText:key:keySize:)`: None when the text is not base64,
   * when the key size is not an AES size, when authentication fails, or
   * when the opened bytes are not UTF-8.
   */
  function Decrypt(p: Primitives, encryptedText: string, key: string, keySize: nat := DefaultKeySize): (r: Option<string>)
    ensures p.fromBase64(encryptedText).None? ==> r.None?
    ensures !IsAesKeySize(keySize) ==> r.None?
    ensures r.Some? ==> exists plain :: p.open(SymmetricKeyData(key, keySize), p.fromBase64(encryptedText).value) == Some(plain)
                                      && Decode(plain) == r
  {
    match p.fromBase64(encryptedText)
    case None => None
    case Some(combinedData) =>
      var symmetricKey := SymmetricKeyData(key, keySize);
      if !IsAesKeySize(keySize) then None
      else
        match p.open(symmetricKey, combinedData)
        case None => None
        case Some(decryptedData) => Decode(decryptedData)
  }

  /** Decrypting with the encryption key gives the plain text back, whatever the text and key. */
  lemma DecryptEncrypt(p: Primitives, plainText: string, key: string, nonce: Bytes, keySize: nat)
    requires Lawful(p)
    requires IsAesKeySize(keySize)
    ensures Decrypt(p, Encrypt(p, plainText, key, nonce, keySize).value, key, keySize) == Some(plainText)
  {
    var k := SymmetricKeyData(key, keySize);
    var box := p.seal(k, nonce, Encode(plainText));
    assert p.fromBase64(p.base64(box)) == Some(box);
    assert p.open(k, box) == Some(Encode(plainText));
    DecodeEncode(plainText);
  }

  /** A key that derives other key bytes does not open the text. */
  lemma DecryptWithOtherKey(p: Primitives, plainText: string, key: string, otherKey: string, nonce: Bytes, keySize: nat)
    requires Lawful(p)
    requires SymmetricKeyData(key, keySize) != SymmetricKeyData(otherKey, keySize)
    ensures Encrypt(p, plainText, key, nonce, keySize).Some? ==>
              Decrypt(p, Encrypt(p, plainText, key, nonce, keySize).value, otherKey, keySize) == None
  {
    if IsAesKeySize(keySize) {
      var k := SymmetricKeyData(key, keySize);
      var box := p.seal(k, nonce, Encode(plainText));
      assert p.fromBase64(p.base64(box)) == Some(box);
      assert p.open(SymmetricKeyData(otherKey, keySize), box) == None;
    }
  }

  /**
   * Only the first `keySize` bytes of the key matter: two keys at least
   * that long derive the same key bytes exactly when those bytes agree.
   */
  lemma KeyDecidedByPrefix(key: string, otherKey: string, keySize: nat)
    requires |Encode(key)| >= keySize && |Encode(otherKey)| >= keySize
    ensures SymmetricKeyData(key, keySize) == SymmetricKeyData(otherKey, keySize)
            <==> Encode(key)[..keySize] == Encode(otherKey)[..keySize]
  {
    var k, k' := SymmetricKeyData(key, keySize), SymmetricKeyData(otherKey, keySize);
    if k == k' {
      forall i | 0 <= i < keySize ensures Encode(key)[..keySize][i] == Encode(otherKey)[..keySize][i] {
        assert k[i] == k'[i];
      }
    }
  }

  /** A text that is not base64 does not decrypt, under any key. */
  lemma DecryptRejectsNonBase64(p: Primitives, encryptedText: string, i: int, key: string, keySize: nat)
    requires Lawful(p)
    requires 0 <= i < |encryptedText| && !IsBase64Char(encryptedText[i])
    ensures Decrypt(p, encryptedText, key, keySize) == None
  {
    assert Base64RejectsForeignChars(p);
  }

  /** The key size the encryption service supplies by default is one AES accepts. */
  lemma DefaultKeySizeIsAes()
    ensures IsAesKeySize(DefaultKeySize)
  {
  }

  /** The first key byte of a key starting with an ASCII character is that character. */
  lemma FirstKeyByte(key: string, keySize: nat)
    requires |key| > 0 && key[0] as int < 0x80 && keySize > 0
    ensures SymmetricKeyData(key, keySize)[0] == key[0] as int as byte
  {
    assert Encode(key) == EncodeChar(key[0]) + Encode(key[1..]);
  }

  /** Keys whose first ASCII characters differ do not open each other's texts. */
  lemma DifferentFirstCharFails(p: Primitives, plainText: string, key: string, otherKey: string, nonce: Bytes)
    requires Lawful(p)
    requires |key| > 0 && |otherKey| > 0 && key[0] as int < 0x80 && otherKey[0] as int < 0x80 && key[0] != otherKey[0]
    ensures Decrypt(p, Encrypt(p, plainText, key, nonce).value, otherKey) == None
  {
    FirstKeyByte(key, DefaultKeySize);
    FirstKeyByte(otherKey, DefaultKeySize);
    DefaultKeySizeIsAes();
    DecryptWithOtherKey(p, plainText, key, otherKey, nonce, DefaultKeySize);
  }

  /**
   * The keys "correct-key" and "wrong-key" derive different key bytes, so
   * text encrypted under one does not decrypt under the other.
   */
  lemma CorrectAndWrongKeyDiffer(p: Primitives, nonce: Bytes)
    requires Lawful(p)
    ensures Decrypt(p, Encrypt(p, "Top secret", "correct-key", nonce).value, "wrong-key") == None
  {
    DifferentFirstCharFails(p, "Top secret", "correct-key", "wrong-key", nonce);
  }

  /** "Hello world" under "my-secret-key" round-trips. */
  lemma HelloWorldRoundTrip(p: Primitives, nonce: Bytes)
    requires Lawful(p)
    ensures Decrypt(p, Encrypt(p, "Hello world", "my-secret-key", nonce).value, "my-secret-key") == Some("Hello world")
  {
    DecryptEncrypt(p, "Hello world", "my-secret-key", nonce, DefaultKeySize);
  }

  /** The empty text round-trips. */
  lemma EmptyTextRoundTrip(p: Primitives, nonce: Bytes)
    requires Lawful(p)
    ensures Decrypt(p, Encrypt(p, "", "any-key", nonce).value, "any-key") == Some("")
  {
    DecryptEncrypt(p, "", "any-key", nonce, DefaultKeySize);
  }

  /** A key shorter than 32 bytes, padded with zeros, round-trips. */
  lemma ShortKeyRoundTrip(p: Primitives, nonce: Bytes)
    requires Lawful(p)
    ensures Decrypt(p, Encrypt(p, "Short key test", "abc", nonce).value, "abc") == Some("Short key test")
  {
    DecryptEncrypt(p, "Short key test", "abc", nonce, DefaultKeySize);
  }

  /** A key longer than 32 bytes, truncated, round-trips. */
  lemma LongKeyRoundTrip(p: Primitives, nonce: Bytes)
    requires Lawful(p)
    ensures var longKey := seq(100, _ => 'x');
            Decrypt(p, Encrypt(p, "Long key test", longKey, nonce).value, longKey) == Some("Long key test")
  {
    DecryptEncrypt(p, "Long key test", seq(100, _ => 'x'), nonce, DefaultKeySize);
  }

  /** "***not-base64***" does not decrypt. */
  lemma NotBase64Example(p: Primitives, key: string)
    requires Lawful(p)
    ensures Decrypt(p, "***not-base64***", key) == None
  {
    DecryptRejectsNonBase64(p, "***not-base64***", 0, key, DefaultKeySize);
  }
}
