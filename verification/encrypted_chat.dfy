/**
 * The "encrypted" chat panel: a repeating-key XOR over UTF-16 code units,
 * wrapped in base64 by `btoa`, its inverse with a fixed error text, the
 * random key pair, and the panel's send and start-over handlers.
 */
module Cipher {
  import opened Text
  import opened Optional
  import Base64

  function Pow2(n: nat): (p: nat)
    ensures p >= 1
  {
    if n == 0 then 1 else 2 * Pow2(n - 1)
  }

  lemma Pow2Values()
    ensures Pow2(8) == 0x100 && Pow2(16) == 0x1_0000
  {
    assert Pow2(4) == 16;
    assert Pow2(8) == 0x100;
    assert Pow2(12) == 0x1000;
  }

  /** `a` shifted right by `k` bits. */
  function Shr(a: nat, k: nat): nat {
    if k == 0 then a else Shr(a / 2, k - 1)
  }

  lemma {:induction false} ShrStep(a: nat, k: nat)
    ensures Shr(a, k + 1) == Shr(a, k) / 2
  {
    if k > 0 {
      ShrStep(a / 2, k - 1);
    }
  }

  lemma ShrEight(a: nat)
    ensures Shr(a, 8) == a / 0x100
  {
    ShrStep(a, 0); ShrStep(a, 1); ShrStep(a, 2); ShrStep(a, 3);
    ShrStep(a, 4); ShrStep(a, 5); ShrStep(a, 6); ShrStep(a, 7);
    assert Shr(a, 2) == a / 4;
    assert Shr(a, 4) == a / 16;
    assert Shr(a, 6) == a / 64;
  }

  /** Bitwise XOR of the low `width` bits of `a` and `b`, least significant bit first. */
  function XorBits(a: nat, b: nat, width: nat): (r: nat)
    ensures r < Pow2(width)
  {
    if width == 0 then 0
    else 2 * XorBits(a / 2, b / 2, width - 1) + (if a % 2 == b % 2 then 0 else 1)
  }

  lemma {:induction false} XorBitsTwice(a: nat, b: nat, width: nat)
    requires a < Pow2(width)
    ensures XorBits(XorBits(a, b, width), b, width) == a
  {
    if width > 0 {
      var x := XorBits(a, b, width);
      assert x / 2 == XorBits(a / 2, b / 2, width - 1);
      XorBitsTwice(a / 2, b / 2, width - 1);
    }
  }

  lemma {:induction false} XorBitsZero(a: nat, b: nat, width: nat)
    requires a < Pow2(width) && b < Pow2(width)
    ensures XorBits(a, b, width) == 0 <==> a == b
  {
    if width > 0 {
      XorBitsZero(a / 2, b / 2, width - 1);
    }
  }

  /** The XOR stays below `2^k` exactly when the bits from `k` up agree. */
  lemma {:induction false} XorBitsBelow(a: nat, b: nat, width: nat, k: nat)
    requires k <= width && a < Pow2(width) && b < Pow2(width)
    ensures XorBits(a, b, width) < Pow2(k) <==> Shr(a, k) == Shr(b, k)
  {
    if k == 0 {
      XorBitsZero(a, b, width);
    } else {
      XorBitsBelow(a / 2, b / 2, width - 1, k - 1);
    }
  }

  /** `a ^ b` for two code units (ToInt32 leaves 16-bit values as they are). */
  function Xor(a: CodeUnit, b: CodeUnit): CodeUnit {
    Pow2Values();
    XorBits(a, b, 16)
  }

  /** XOR-ing twice with the same unit gives the original unit back. */
  lemma XorTwice(a: CodeUnit, b: CodeUnit)
    ensures Xor(Xor(a, b), b) == a
  {
    Pow2Values();
    XorBitsTwice(a, b, 16);
  }

  /** The XOR of two code units fits in a byte exactly when their high bytes are equal. */
  lemma XorFitsByte(a: CodeUnit, b: CodeUnit)
    ensures Xor(a, b) < 0x100 <==> a / 0x100 == b / 0x100
  {
    Pow2Values();
    XorBitsBelow(a, b, 16, 8);
    ShrEight(a);
    ShrEight(b);
  }

  /**
   * `key.charCodeAt(i % key.length)` as the XOR sees it. For an empty key
   * `i % 0` is NaN, `charCodeAt(NaN)` is NaN, and `x ^ NaN` is `x ^ 0`, so
   * the unit is 0.
   */
  function KeyUnit(key: JsString, i: nat): CodeUnit {
    if |key| == 0 then 0 else key[i % |key|]
  }

  /** Unit `i` of `s` XOR-ed with unit `i mod |key|` of the key. */
  function XorStream(s: JsString, key: JsString): (r: JsString)
    ensures |r| == |s|
  {
    seq(|s|, i requires 0 <= i < |s| => Xor(s[i], KeyUnit(key, i)))
  }

  /** The XOR layer is an involution for every key. */
  lemma XorStreamTwice(s: JsString, key: JsString)
    ensures XorStream(XorStream(s, key), key) == s
  {
    var once := XorStream(s, key);
    forall i | 0 <= i < |s|
      ensures XorStream(once, key)[i] == s[i]
    {
      XorTwice(s[i], KeyUnit(key, i));
    }
  }

  /** A string whose units all fit in a byte, read as bytes. */
  function Latin1Bytes(s: JsString): (b: seq<Base64.Byte>)
    requires forall i | 0 <= i < |s| :: s[i] < 0x100
    ensures b == s
  {
    seq(|s|, i requires 0 <= i < |s| => s[i])
  }

  /**
   * `btoa(s)`: the base64 text of the units of `s`, or `None` where `btoa`
   * throws because some unit is above 0xFF.
   */
  function Btoa(s: JsString): Option<JsString> {
    if forall i | 0 <= i < |s| :: s[i] < 0x100 then Some(Base64.Encode(Latin1Bytes(s)))
    else None
  }

  /** `atob(s)` read back as a string of code units, or `None` where it throws. */
  function Atob(s: JsString): Option<JsString> {
    match Base64.Decode(s)
    case None => None
    case Some(bytes) => Some(bytes)
  }

  /** What `simpleDecrypt` returns when `atob` throws. */
  const DecryptionFailed: JsString := Lit("[Ошибка расшифровки]")

  /** `simpleEncrypt(text, key)`; `None` where the call throws. */
  function Encrypt(text: JsString, key: JsString): Option<JsString> {
    Btoa(XorStream(text, key))
  }

  /** `simpleDecrypt(encrypted, key)`; it never throws. */
  function Decrypt(encrypted: JsString, key: JsString): JsString {
    match Atob(encrypted)
    case None => DecryptionFailed
    case Some(decoded) => XorStream(decoded, key)
  }

  /** `simpleEncrypt`: the XOR loop, then `btoa`. */
  method SimpleEncrypt(text: JsString, key: JsString) returns (r: Option<JsString>)
    ensures r == Encrypt(text, key)
  {
    var encrypted: JsString := [];
    var i := 0;
    while i < |text|
      invariant 0 <= i <= |text|
      invariant |encrypted| == i
      invariant forall j | 0 <= j < i :: encrypted[j] == Xor(text[j], KeyUnit(key, j))
    {
      var charCode := text[i];
      var keyChar := KeyUnit(key, i);
      encrypted := encrypted + [Xor(charCode, keyChar)];
      i := i + 1;
    }
    assert encrypted == XorStream(text, key);
    r := Btoa(encrypted);
  }

  /** `simpleDecrypt`: `atob`, then the XOR loop; a failing `atob` gives the error text. */
  method SimpleDecrypt(encrypted: JsString, key: JsString) returns (r: JsString)
    ensures r == Decrypt(encrypted, key)
  {
    var decodedOrThrown := Atob(encrypted);
    if decodedOrThrown.None? {
      return DecryptionFailed;
    }
    var decoded := decodedOrThrown.value;
    var decrypted: JsString := [];
    var i := 0;
    while i < |decoded|
      invariant 0 <= i <= |decoded|
      invariant |decrypted| == i
      invariant forall j | 0 <= j < i :: decrypted[j] == Xor(decoded[j], KeyUnit(key, j))
    {
      var charCode := decoded[i];
      var keyChar := KeyUnit(key, i);
      decrypted := decrypted + [Xor(charCode, keyChar)];
      i := i + 1;
    }
    assert decrypted == XorStream(decoded, key);
    r := decrypted;
  }

  /**
   * Encryption succeeds exactly when every XOR-ed unit fits in a byte, that is
   * when every text unit has the same high byte as the key unit it meets.
   */
  lemma EncryptSucceedsIff(text: JsString, key: JsString)
    ensures Encrypt(text, key).Some? <==>
            forall i | 0 <= i < |text| :: Xor(text[i], KeyUnit(key, i)) < 0x100
    ensures Encrypt(text, key).Some? <==>
            forall i | 0 <= i < |text| :: text[i] / 0x100 == KeyUnit(key, i) / 0x100
  {
    var x := XorStream(text, key);
    assert forall i | 0 <= i < |text| :: x[i] == Xor(text[i], KeyUnit(key, i));
    forall i | 0 <= i < |text|
      ensures Xor(text[i], KeyUnit(key, i)) < 0x100 <==> text[i] / 0x100 == KeyUnit(key, i) / 0x100
    {
      XorFitsByte(text[i], KeyUnit(key, i));
    }
  }

  /** The XOR layer keeps the length; base64 makes it four units per started three. */
  lemma EncryptLength(text: JsString, key: JsString)
    requires Encrypt(text, key).Some?
    ensures |Encrypt(text, key).value| == 4 * ((|text| + 2) / 3)
  {
    Base64.EncodeLength(Latin1Bytes(XorStream(text, key)));
  }

  /** Round trip: decrypting with the same key gives the text back. */
  lemma DecryptEncrypt(text: JsString, key: JsString)
    requires Encrypt(text, key).Some?
    ensures Decrypt(Encrypt(text, key).value, key) == text
  {
    var x := XorStream(text, key);
    Base64.DecodeEncode(Latin1Bytes(x));
    XorStreamTwice(text, key);
  }

  /**
   * A ciphertext always decodes, whatever key is used: a wrong key yields the
   * text XOR-ed with both keys, never the error text's error path.
   */
  lemma DecryptWithAnyKey(text: JsString, key: JsString, other: JsString)
    requires Encrypt(text, key).Some?
    ensures Atob(Encrypt(text, key).value).Some?
    ensures Decrypt(Encrypt(text, key).value, other) == XorStream(XorStream(text, key), other)
  {
    Base64.DecodeEncode(Latin1Bytes(XorStream(text, key)));
  }

  /** Input holding a unit that base64 can never contain decrypts to the error text. */
  lemma DecryptMalformed(encrypted: JsString, key: JsString, i: int)
    requires 0 <= i < |encrypted|
    requires !Base64.IsLetter(encrypted[i]) && encrypted[i] != Base64.Pad
    requires !Base64.IsAsciiWhiteSpace(encrypted[i])
    ensures Decrypt(encrypted, key) == DecryptionFailed
  {
    Base64.DecodeRejectsForeignUnit(encrypted, i);
  }

  /** Input of length 1 modulo 4 (with no white space) decrypts to the error text. */
  lemma DecryptTruncated(encrypted: JsString, key: JsString)
    requires forall i | 0 <= i < |encrypted| :: !Base64.IsAsciiWhiteSpace(encrypted[i])
    requires |encrypted| % 4 == 1
    ensures Decrypt(encrypted, key) == DecryptionFailed
  {
    Base64.DecodeRejectsLengthOneModFour(encrypted);
  }

  /** Input with an '=' that is not final padding decrypts to the error text. */
  lemma DecryptMisplacedPad(encrypted: JsString, key: JsString, i: int)
    requires forall k | 0 <= k < |encrypted| :: !Base64.IsAsciiWhiteSpace(encrypted[k])
    requires 0 <= i < |encrypted| && encrypted[i] == Base64.Pad
    requires i + 2 < |encrypted| || |encrypted| % 4 != 0 || (i + 2 == |encrypted| && encrypted[|encrypted| - 1] != Base64.Pad)
    ensures Decrypt(encrypted, key) == DecryptionFailed
  {
    Base64.DecodeRejectsMisplacedPad(encrypted, i);
  }

  /** "AAAAA" is one character too long and "A=AA" has an inner '=': both decrypt to the error text. */
  lemma MalformedSamples(key: JsString)
    ensures Decrypt(Lit("AAAAA"), key) == DecryptionFailed
    ensures Decrypt(Lit("A=AA"), key) == DecryptionFailed
  {
    DecryptTruncated(Lit("AAAAA"), key);
    DecryptMisplacedPad(Lit("A=AA"), key, 1);
  }

  /**
   * Cyrillic text throws under a Latin key, since its high byte survives the
   * XOR; it goes through only when the key's high bytes cancel it.
   */
  lemma CyrillicNeedsMatchingKey()
    ensures Encrypt(Lit("П"), Lit("K")).None?
    ensures Encrypt(Lit("П"), Lit("Р")).Some?
  {
    EncryptSucceedsIff(Lit("П"), Lit("K"));
    assert KeyUnit(Lit("K"), 0) == 0x4B;
    EncryptSucceedsIff(Lit("П"), Lit("Р"));
    assert KeyUnit(Lit("Р"), 0) == 0x0420;
  }

  /** One draw: `Math.floor(Math.random() * chars.length)`, an index into the 36 key characters. */
  type KeyDraw = d: int | 0 <= d < 36

  /** `chars[d]` for `chars = 'ABCDEFGHIJKLMNOPQRSTUVWXYZ0123456789'`: 26 capitals, then 10 digits. */
  function KeyChar(d: KeyDraw): CodeUnit {
    if d < 26 then 0x41 + d else 0x30 + (d - 26)
  }

  predicate IsKeyChar(c: CodeUnit) {
    0x41 <= c <= 0x5A || 0x30 <= c <= 0x39
  }

  /** A key of the given draws, one character per draw. */
  function RandomKey(draws: seq<KeyDraw>): (k: JsString)
    ensures |k| == |draws|
    ensures forall i | 0 <= i < |k| :: IsKeyChar(k[i])
  {
    seq(|draws|, i requires 0 <= i < |draws| => KeyChar(draws[i]))
  }

  /** A sent message of the panel. */
  datatype SecretMessage = SecretMessage(
    id: JsString, text: JsString, encrypted: JsString, timestamp: int, isSent: bool)

  /** The panel's state. */
  class EncryptedChat {
    var publicKey: JsString
    var privateKey: JsString
    var messages: seq<SecretMessage>
    var newMessage: JsString
    var recipientKey: JsString
    var isKeysGenerated: bool

    constructor ()
      ensures publicKey == [] && privateKey == [] && messages == []
      ensures newMessage == [] && recipientKey == [] && !isKeysGenerated
    {
      publicKey, privateKey, messages := [], [], [];
      newMessage, recipientKey, isKeysGenerated := [], [], false;
    }

    /** `generateKeys`: a 16-character public and a 32-character private key from A-Z0-9. */
    method GenerateKeys(publicDraws: seq<KeyDraw>, privateDraws: seq<KeyDraw>)
      requires |publicDraws| == 16 && |privateDraws| == 32
      modifies this
      ensures publicKey == RandomKey(publicDraws) && privateKey == RandomKey(privateDraws)
      ensures |publicKey| == 16 && |privateKey| == 32
      ensures isKeysGenerated
      ensures messages == old(messages) && newMessage == old(newMessage)
      ensures recipientKey == old(recipientKey)
    {
      publicKey := RandomKey(publicDraws);
      privateKey := RandomKey(privateDraws);
      isKeysGenerated := true;
    }

    /**
     * `sendMessage`. A blank message or recipient key changes nothing; so does
     * an encryption that throws. Otherwise exactly one message is appended,
     * holding the untrimmed text and its encryption under recipient key plus
     * private key, and the input is cleared. `id` and `now` are the two
     * `Date.now()` readings.
     */
    method SendMessage(id: JsString, now: int) returns (thrown: bool)
      modifies this
      ensures var sendable := Trim(old(newMessage)) != [] && Trim(old(recipientKey)) != [];
              var sealed := Encrypt(old(newMessage), old(recipientKey) + old(privateKey));
              && (thrown <==> sendable && sealed.None?)
              && (if sendable && sealed.Some? then
                    && messages == old(messages) + [SecretMessage(id, old(newMessage), sealed.value, now, true)]
                    && newMessage == []
                  else
                    messages == old(messages) && newMessage == old(newMessage))
      ensures publicKey == old(publicKey) && privateKey == old(privateKey)
      ensures recipientKey == old(recipientKey) && isKeysGenerated == old(isKeysGenerated)
    {
      thrown := false;
      if Trim(newMessage) == [] || Trim(recipientKey) == [] {
        return;
      }
      var encrypted := SimpleEncrypt(newMessage, recipientKey + privateKey);
      if encrypted.None? {
        thrown := true;
        return;
      }
      var message := SecretMessage(id, newMessage, encrypted.value, now, true);
      messages := messages + [message];
      newMessage := [];
    }

    /** The "generate new keys" button: back to the key screen, keys left in place. */
    method StartOver()
      modifies this
      ensures !isKeysGenerated && messages == [] && recipientKey == []
      ensures publicKey == old(publicKey) && privateKey == old(privateKey)
      ensures newMessage == old(newMessage)
    {
      isKeysGenerated := false;
      messages := [];
      recipientKey := [];
    }
  }
}
