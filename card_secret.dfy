/** The card-secret resolver: the passphrase convention that ties a card's
    serial number and the customer's PIN to the symmetric key of the stored
    ciphertext, and the three shape checks that the versions apply to the
    decrypted text. AES itself is an input `aes(ciphertext, passphrase)`,
    `None` when CryptoJS throws (for instance on malformed UTF-8). */
module CardSecret {
  import opened Common

  /** Why a key could not be recovered: the uniform "wrong PIN" answer, or
      a library error that v2.2.0 lets escape unchanged. */
  datatype DecryptError = InvalidPin | CipherFailure

  /** The wire convention `{serial}-PIN{pin}-SECURE`. */
  function Passphrase(serial: string, pin: string): (p: string)
    ensures StartsWith(p, serial) && EndsWith(p, "-SECURE")
    ensures |p| == |serial| + |pin| + 11
  {
    serial + "-PIN" + pin + "-SECURE"
  }

  /** How many decimal digits end `s`. */
  function TrailingDigits(s: string): (n: nat)
    ensures n <= |s|
    ensures IsDigits(s[|s| - n..])
  {
    if |s| > 0 && '0' <= s[|s| - 1] <= '9' then TrailingDigits(s[..|s| - 1]) + 1 else 0
  }

  /** Reads the serial and the PIN back out of a passphrase whose PIN is
      all digits (the PIN pad only produces digits). */
  function SplitPassphrase(p: string): Option<(string, string)> {
    if !EndsWith(p, "-SECURE") then None
    else
      var body := p[..|p| - 7];
      var n := TrailingDigits(body);
      var head := body[..|body| - n];
      if EndsWith(head, "-PIN") then Some((head[..|head| - 4], body[|body| - n..])) else None
  }

  lemma {:induction false} TrailingDigitsAfterLetter(head: string, pin: string)
    requires IsDigits(pin)
    requires |head| > 0 && !('0' <= head[|head| - 1] <= '9')
    ensures TrailingDigits(head + pin) == |pin|
    decreases |pin|
  {
    var s := head + pin;
    if |pin| == 0 {
      assert s == head;
    } else {
      assert s[..|s| - 1] == head + pin[..|pin| - 1];
      TrailingDigitsAfterLetter(head, pin[..|pin| - 1]);
    }
  }

  /** The passphrase loses nothing: serial and PIN can be read back. */
  lemma PassphraseRoundTrip(serial: string, pin: string)
    requires IsDigits(pin)
    ensures SplitPassphrase(Passphrase(serial, pin)) == Some((serial, pin))
  {
    var p := Passphrase(serial, pin);
    var body := p[..|p| - 7];
    assert body == (serial + "-PIN") + pin;
    TrailingDigitsAfterLetter(serial + "-PIN", pin);
    var head := body[..|body| - |pin|];
    assert head == serial + "-PIN";
    assert body[|body| - |pin|..] == pin;
    assert head[..|head| - 4] == serial;
  }

  /** Two cards (or two PINs) never share a passphrase, so a ciphertext is
      bound to exactly one (serial, PIN) pair. */
  lemma PassphraseInjective(serial1: string, pin1: string, serial2: string, pin2: string)
    requires IsDigits(pin1) && IsDigits(pin2)
    requires Passphrase(serial1, pin1) == Passphrase(serial2, pin2)
    ensures serial1 == serial2 && pin1 == pin2
  {
    PassphraseRoundTrip(serial1, pin1);
    PassphraseRoundTrip(serial2, pin2);
  }

  /** `if (!k.startsWith('0x')) k = '0x' + k` */
  function WithHexPrefix(s: string): (r: string)
    ensures StartsWith(r, "0x")
    ensures StartsWith(s, "0x") ==> r == s
    ensures !StartsWith(s, "0x") ==> r == "0x" + s
  {
    if StartsWith(s, "0x") then s else "0x" + s
  }

  /** The pattern `^0x[0-9a-fA-F]{64}$`. */
  predicate IsStrictKey(s: string) {
    |s| == 66 && StartsWith(s, "0x") && IsHex(s[2..])
  }

  /** Normalisation and check of v.2.4.16, v2.4.8 and v2.4.0: prefix `0x`
      if absent, then demand `!k || k.length !== 66 || !regex` be false. */
  function StrictKey(plain: string): Option<string> {
    var k := WithHexPrefix(plain);
    if k == "" || |k| != 66 || !IsStrictKey(k) then None else Some(k)
  }

  /** `decryptPrivateKey` of v.2.4.16 (and, word for word, of v2.4.8 and
      v2.4.0): every failure, thrown or shape, is the one "Invalid PIN". */
  function DecryptStrict(aes: (string, string) -> Option<string>, encPrivKey: string, pin: string, serial: string)
    : (r: Result<string, DecryptError>)
    ensures r.Ok? ==> IsStrictKey(r.value)
    ensures r.Err? ==> r.error == InvalidPin
    ensures r.Ok? ==> aes(encPrivKey, Passphrase(serial, pin)) in {Some(r.value), Some(r.value[2..])}
    ensures r.Ok? <==> exists plain :: aes(encPrivKey, Passphrase(serial, pin)) == Some(plain) && IsStrictKey(WithHexPrefix(plain))
  {
    match aes(encPrivKey, Passphrase(serial, pin))
    case None => Err(InvalidPin)
    case Some(plain) =>
      match StrictKey(plain)
      case Some(k) => Ok(k)
      case None => Err(InvalidPin)
  }

  /** A key provisioned with this card's serial and PIN, with or without
      its `0x`, comes back exactly, prefixed. */
  lemma DecryptStrictRoundTrip(aes: (string, string) -> Option<string>, encPrivKey: string, pin: string, serial: string, key: string)
    requires IsStrictKey(key) || (|key| == 64 && IsHex(key))
    requires aes(encPrivKey, Passphrase(serial, pin)) == Some(key)
    ensures DecryptStrict(aes, encPrivKey, pin, serial) == Ok(WithHexPrefix(key))
  {
    if !IsStrictKey(key) {
      assert IsHexDigit(key[1]);
      assert key[..2] != "0x";
      assert ("0x" + key)[2..] == key;
    }
  }

  /** Any plaintext whose normalised form misses the pattern is rejected,
      however plausible; in particular none shorter than 64 characters. */
  lemma DecryptStrictRejectsShort(aes: (string, string) -> Option<string>, encPrivKey: string, pin: string, serial: string, plain: string)
    requires aes(encPrivKey, Passphrase(serial, pin)) == Some(plain)
    requires |plain| < 64
    ensures DecryptStrict(aes, encPrivKey, pin, serial) == Err(InvalidPin)
  {
  }

  /** Normalisation and check of village-wallet-1 and village-wallet.ts:
      prefix `0x`, then only a length of at least 60 is demanded. */
  function LooseKey(plain: string): Option<string> {
    var k := WithHexPrefix(plain);
    if k == "" || |k| < 60 then None else Some(k)
  }

  /** `decryptPrivateKey` of village-wallet-1 (and, word for word, of
      village-wallet.ts): the inner error and a library throw alike are
      rethrown as 'Invalid PIN'. */
  function DecryptLoose(aes: (string, string) -> Option<string>, encryptedKey: string, pin: string, cardSerial: string)
    : (r: Result<string, DecryptError>)
    ensures r.Ok? ==> StartsWith(r.value, "0x") && |r.value| >= 60
    ensures r.Err? ==> r.error == InvalidPin
    ensures r.Ok? ==> aes(encryptedKey, Passphrase(cardSerial, pin)) in {Some(r.value), Some(r.value[2..])}
  {
    match aes(encryptedKey, Passphrase(cardSerial, pin))
    case None => Err(InvalidPin)
    case Some(plain) =>
      match LooseKey(plain)
      case Some(k) => Ok(k)
      case None => Err(InvalidPin)
  }

  /** Whatever the strict check accepts, the loose one accepts too, with
      the same value. */
  lemma StrictImpliesLoose(aes: (string, string) -> Option<string>, encKey: string, pin: string, serial: string)
    requires DecryptStrict(aes, encKey, pin, serial).Ok?
    ensures DecryptLoose(aes, encKey, pin, serial) == DecryptStrict(aes, encKey, pin, serial)
  {
  }

  /** The loose check is no authentication: sixty non-hex characters pass
      it, where the strict check answers "Invalid PIN". */
  lemma LooseAcceptsNonKey(aes: (string, string) -> Option<string>, encKey: string, pin: string, serial: string)
    requires aes(encKey, Passphrase(serial, pin)) == Some(seq(60, _ => 'z'))
    ensures DecryptLoose(aes, encKey, pin, serial).Ok?
    ensures DecryptStrict(aes, encKey, pin, serial) == Err(InvalidPin)
  {
    var plain := seq(60, _ => 'z');
    assert plain[1] == 'z' && plain[..2] != "0x";
    assert WithHexPrefix(plain)[2] == 'z';
  }

  /** `decryptPrivateKey(encryptedKey, serial, pin)` of v2.2.0: the
      plaintext is returned as it is, without `0x` normalisation, once it
      is non-empty and at least 32 characters long; a library throw is not
      caught. */
  function DecryptUnprefixed(aes: (string, string) -> Option<string>, encryptedKey: string, serial: string, pin: string)
    : (r: Result<string, DecryptError>)
    ensures r.Ok? ==> |r.value| >= 32 && aes(encryptedKey, Passphrase(serial, pin)) == Some(r.value)
    ensures r.Err? ==> (r.error == CipherFailure <==> aes(encryptedKey, Passphrase(serial, pin)).None?)
    ensures aes(encryptedKey, Passphrase(serial, pin)).Some? && r.Err? ==> |aes(encryptedKey, Passphrase(serial, pin)).value| < 32
  {
    match aes(encryptedKey, Passphrase(serial, pin))
    case None => Err(CipherFailure)
    case Some(decrypted) =>
      if decrypted == "" || |decrypted| < 32 then Err(InvalidPin) else Ok(decrypted)
  }
}
