/**
 * The platform primitives under the encryption service: AES-GCM from
 * CryptoKit and base64 from Foundation. They are not modelled; the model is
 * parameterized by them, and `Lawful` states the only facts about them that
 * the rest of the model relies on.
 */
module Crypto {
  import opened Wrappers
  import opened Utf8

  /**
   * `seal(key, nonce, plain)` is `AES.GCM.seal(plain, using: key, nonce: nonce).combined`;
   * `open(key, combined)` is `AES.GCM.open(AES.GCM.SealedBox(combined: combined), using: key)`,
   * None where either throws; `base64` is `base64EncodedString()`;
   * `fromBase64(s)` is `Data(base64Encoded: s)`.
   */
  datatype Primitives = Primitives(
    seal: (Bytes, Bytes, Bytes) -> Bytes,
    open: (Bytes, Bytes) -> Option<Bytes>,
    base64: Bytes -> string,
    fromBase64: string -> Option<Bytes>)

  /** The characters a base64 text may contain. */
  predicate IsBase64Char(c: char)
  {
    ('A' <= c <= 'Z') || ('a' <= c <= 'z') || ('0' <= c <= '9') || c == '+' || c == '/' || c == '='
  }

  /** Opening a sealed box with the sealing key gives the plain text back. */
  ghost predicate OpensWithSealingKey(p: Primitives)
  {
    forall key, nonce, plain :: p.open(key, p.seal(key, nonce, plain)) == Some(plain)
  }

  /** Opening a sealed box with any other key fails authentication. */
  ghost predicate RejectsOtherKeys(p: Primitives)
  {
    forall key, other, nonce, plain :: other != key ==> p.open(other, p.seal(key, nonce, plain)) == None
  }

  /** base64 decoding inverts base64 encoding. */
  ghost predicate Base64RoundTrips(p: Primitives)
  {
    forall b :: p.fromBase64(p.base64(b)) == Some(b)
  }

  /** A text with a character outside the base64 alphabet does not decode. */
  ghost predicate Base64RejectsForeignChars(p: Primitives)
  {
    forall s: string, i :: 0 <= i < |s| && !IsBase64Char(s[i]) ==> p.fromBase64(s) == None
  }

  ghost predicate Lawful(p: Primitives)
  {
    OpensWithSealingKey(p) && RejectsOtherKeys(p) && Base64RoundTrips(p) && Base64RejectsForeignChars(p)
  }

  /**
   * A toy instance, used only to show that `Lawful` can be met: the "sealed
   * box" is the key's length in unary, a zero, the key and the plain text;
   * the "base64 text" spells each byte with two letters.
   */
  function Ones(n: nat): (r: Bytes)
    ensures |r| == n && forall i :: 0 <= i < n ==> r[i] == 1
  {
    seq(n, _ => 1 as byte)
  }

  function ToySeal(key: Bytes, nonce: Bytes, plain: Bytes): Bytes
  {
    Ones(|key|) + [0] + key + plain
  }

  function ToyOpen(key: Bytes, combined: Bytes): Option<Bytes>
  {
    var n := 2 * |key| + 1;
    if n <= |combined| && combined[..n] == Ones(|key|) + [0] + key then Some(combined[n..]) else None
  }

  function HexLetter(x: int): char
    requires 0 <= x < 16
  {
    ('A' as int + x) as char
  }

  function ToyText(b: Bytes): (s: string)
    ensures |s| == 2 * |b|
  {
    if b == [] then [] else [HexLetter(b[0] as int / 16), HexLetter(b[0] as int % 16)] + ToyText(b[1..])
  }

  /** The sixteen letters 'A'..'P' that ToyText writes. */
  predicate IsToyLetter(c: char)
  {
    'A' <= c < 'Q'
  }

  /** The byte a pair of toy letters stands for. */
  function PairByte(hi: char, lo: char): byte
    requires IsToyLetter(hi) && IsToyLetter(lo)
  {
    ((hi as int - 'A' as int) * 16 + (lo as int - 'A' as int)) as byte
  }

  function ToyUntext(s: string): Option<Bytes>
    decreases |s|
  {
    if s == [] then Some([])
    else if |s| < 2 || !IsToyLetter(s[0]) || !IsToyLetter(s[1]) then None
    else
      match ToyUntext(s[2..])
      case None => None
      case Some(rest) => Some([PairByte(s[0], s[1])] + rest)
  }

  /** A byte's two letters are letters ToyUntext accepts, and they give the byte back. */
  lemma HexLettersRoundTrip(x: byte)
    ensures IsToyLetter(HexLetter(x as int / 16)) && IsToyLetter(HexLetter(x as int % 16))
    ensures PairByte(HexLetter(x as int / 16), HexLetter(x as int % 16)) == x
  {
  }

  /** ToyUntext on a text that starts with two toy letters. */
  lemma ToyUntextCons(s: string)
    requires |s| >= 2 && IsToyLetter(s[0]) && IsToyLetter(s[1])
    ensures ToyUntext(s) ==
            if ToyUntext(s[2..]).None? then None else Some([PairByte(s[0], s[1])] + ToyUntext(s[2..]).value)
  {
  }

  lemma {:induction false} ToyUntextText(b: Bytes)
    ensures ToyUntext(ToyText(b)) == Some(b)
  {
    if b != [] {
      var s := ToyText(b);
      HexLettersRoundTrip(b[0]);
      assert s[0] == HexLetter(b[0] as int / 16) && s[1] == HexLetter(b[0] as int % 16);
      assert s[2..] == ToyText(b[1..]);
      ToyUntextText(b[1..]);
      ToyUntextCons(s);
      assert [b[0]] + b[1..] == b;
    }
  }

  lemma {:induction false} ToyUntextRejects(s: string, i: int)
    requires 0 <= i < |s| && !IsBase64Char(s[i])
    ensures ToyUntext(s) == None
    decreases |s|
  {
    if 2 <= |s| && IsToyLetter(s[0]) && IsToyLetter(s[1]) {
      ToyUntextRejects(s[2..], i - 2);
    }
  }

  lemma ToyOpenSealed(key: Bytes, nonce: Bytes, plain: Bytes)
    ensures ToyOpen(key, ToySeal(key, nonce, plain)) == Some(plain)
  {
    var c := ToySeal(key, nonce, plain);
    assert c[..2 * |key| + 1] == Ones(|key|) + [0] + key;
    assert c[2 * |key| + 1..] == plain;
  }

  lemma ToyOpenOther(key: Bytes, other: Bytes, nonce: Bytes, plain: Bytes)
    requires other != key
    ensures ToyOpen(other, ToySeal(key, nonce, plain)) == None
  {
    var c := ToySeal(key, nonce, plain);
    var n, m := |other|, |key|;
    var tag := Ones(n) + [0] + other;
    if n < m && 2 * n + 1 <= |c| {
      assert c[n] != tag[n];
    } else if n > m && 2 * n + 1 <= |c| {
      assert c[m] != tag[m];
    } else if n == m {
      assert c[n + 1..2 * n + 1] == key;
    }
  }

  lemma LawfulPrimitivesExist()
    ensures exists p :: Lawful(p)
  {
    var p := Primitives(ToySeal, ToyOpen, ToyText, ToyUntext);
    forall key, nonce, plain ensures p.open(key, p.seal(key, nonce, plain)) == Some(plain) {
      ToyOpenSealed(key, nonce, plain);
    }
    forall key, other, nonce, plain | other != key ensures p.open(other, p.seal(key, nonce, plain)) == None {
      ToyOpenOther(key, other, nonce, plain);
    }
    forall b ensures p.fromBase64(p.base64(b)) == Some(b) {
      ToyUntextText(b);
    }
    forall s: string, i | 0 <= i < |s| && !IsBase64Char(s[i]) ensures p.fromBase64(s) == None {
      ToyUntextRejects(s, i);
    }
    assert Lawful(p);
  }
}
