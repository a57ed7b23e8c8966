/** src/v.2.4.16.tsx: the decrypted private key is kept as bytes in a
    `SecureKeyHandler` between the preview of a payment and its
    confirmation, and wiped on every way out. */
module V2416 {
  import opened Common
  import opened CardSecret
  import opened Failover
  import opened Gas
  import opened Transfer
  import opened CardPayload
  import opened Checkout

  // ---------------------------------------------------------------------
  // Hex text and bytes, as `setKey` and `getKey` convert them
  // ---------------------------------------------------------------------

  /** The line terminators of ECMAScript, which `.` in a regular
      expression does not match. */
  predicate IsLineTerminator(c: char) {
    c == '\n' || c == '\r' || c == '\U{2028}' || c == '\U{2029}'
  }

  /** The white space `parseInt` skips before the number. */
  predicate IsJsSpace(c: char) {
    IsLineTerminator(c) || c == '\t' || c == '\U{000B}' || c == '\U{000C}' || c == ' '
    || c == '\U{00A0}' || c == '\U{1680}' || ('\U{2000}' <= c <= '\U{200A}')
    || c == '\U{202F}' || c == '\U{205F}' || c == '\U{3000}' || c == '\U{FEFF}'
  }

  /** `s.match(/.{1,2}/g) || []`: pairs of characters from the left, a
      single one where a line terminator or the end comes next; line
      terminators themselves are skipped. */
  function Chunks(s: string): (cs: seq<string>)
    ensures forall i :: 0 <= i < |cs| ==> 1 <= |cs[i]| <= 2
    decreases |s|
  {
    if |s| == 0 then []
    else if IsLineTerminator(s[0]) then Chunks(s[1..])
    else if |s| >= 2 && !IsLineTerminator(s[1]) then [s[..2]] + Chunks(s[2..])
    else [s[..1]] + Chunks(s[1..])
  }

  function HexValue(c: char): (v: nat)
    requires IsHexDigit(c)
    ensures v < 16
  {
    if '0' <= c <= '9' then c as int - '0' as int
    else if 'a' <= c <= 'f' then c as int - 'a' as int + 10
    else c as int - 'A' as int + 10
  }

  /** How many hex digits begin `s`. */
  function HexPrefixLength(s: string): (n: nat)
    ensures n <= |s|
    ensures IsHex(s[..n])
    ensures n < |s| ==> !IsHexDigit(s[n])
  {
    if |s| > 0 && IsHexDigit(s[0]) then
      var n := HexPrefixLength(s[1..]) + 1;
      assert s[..n] == [s[0]] + s[1..][..n - 1];
      n
    else 0
  }

  /** The number a string of hex digits denotes. */
  function HexNumber(s: string): nat
    requires IsHex(s)
  {
    if |s| == 0 then 0 else 16 * HexNumber(s[..|s| - 1]) + HexValue(s[|s| - 1])
  }

  function TrimStart(s: string): (t: string)
    ensures |t| <= |s|
    ensures |t| > 0 ==> !IsJsSpace(t[0])
  {
    if |s| > 0 && IsJsSpace(s[0]) then TrimStart(s[1..]) else s
  }

  /** `parseInt(s, 16)`: leading white space, a sign and a `0x` are
      skipped, then the longest run of hex digits is read; `None` is NaN. */
  function ParseIntHex(s: string): Option<int> {
    var t := TrimStart(s);
    var sign := if |t| > 0 && t[0] == '-' then -1 else 1;
    var u := if |t| > 0 && (t[0] == '-' || t[0] == '+') then t[1..] else t;
    var w := if |u| >= 2 && u[0] == '0' && (u[1] == 'x' || u[1] == 'X') then u[2..] else u;
    var n := HexPrefixLength(w);
    if n == 0 then None else Some(sign * HexNumber(w[..n]))
  }

  /** Storing a number into a `Uint8Array`: NaN is 0, the rest wraps
      modulo 256. */
  function ToUint8(v: Option<int>): Byte {
    match v
    case None => 0
    case Some(x) => x % 256
  }

  /** The byte each chunk becomes: `parseInt(chunk, 16)` stored into a
      `Uint8Array`. */
  function ChunkBytes(cs: seq<string>): (bytes: seq<Byte>)
    ensures |bytes| == |cs|
  {
    if |cs| == 0 then [] else [ToUint8(ParseIntHex(cs[0]))] + ChunkBytes(cs[1..])
  }

  /** The bytes `setKey` stores for the text after its `0x`. */
  function DecodeHex(s: string): (bytes: seq<Byte>)
    ensures |bytes| == |Chunks(s)|
  {
    ChunkBytes(Chunks(s))
  }

  function LowerHexDigit(n: nat): (c: char)
    requires n < 16
    ensures IsHexDigit(c) && HexValue(c) == n && !('A' <= c <= 'Z')
  {
    if n < 10 then ('0' as int + n) as char else ('a' as int + n - 10) as char
  }

  /** `b.toString(16).padStart(2, '0')` */
  function EncodeByte(b: Byte): (s: string)
    ensures |s| == 2 && IsHex(s)
  {
    [LowerHexDigit(b / 16), LowerHexDigit(b % 16)]
  }

  /** `Array.from(bytes).map(EncodeByte).join('')` */
  function EncodeHex(bytes: seq<Byte>): (s: string)
    ensures |s| == 2 * |bytes| && IsHex(s)
  {
    if |bytes| == 0 then [] else EncodeByte(bytes[0]) + EncodeHex(bytes[1..])
  }

  /** `privateKey.startsWith('0x') ? privateKey.slice(2) : privateKey` */
  function CleanKey(privateKey: string): (k: string)
    ensures StartsWith(privateKey, "0x") ==> "0x" + k == privateKey
    ensures !StartsWith(privateKey, "0x") ==> k == privateKey
  {
    if StartsWith(privateKey, "0x") then privateKey[2..] else privateKey
  }

  lemma LowerHexOfValue(c: char)
    requires IsHexDigit(c)
    ensures LowerHexDigit(HexValue(c)) == LowerChar(c)
  {
    if '0' <= c <= '9' {
    } else if 'a' <= c <= 'f' {
    } else {
      assert 'A' <= c <= 'F';
    }
  }

  lemma ParseTwoHexDigits(a: char, b: char)
    requires IsHexDigit(a) && IsHexDigit(b)
    ensures ParseIntHex([a, b]) == Some(16 * HexValue(a) + HexValue(b))
  {
    var s := [a, b];
    assert !IsJsSpace(a);
    assert TrimStart(s) == s;
    assert s[1..][1..] == [];
    assert HexPrefixLength(s) == 2;
    assert s[..2] == s && s[..1] == [a] && [a][..0] == [];
    assert HexNumber([a]) == HexValue(a);
  }

  lemma ChunkOfTwoHexDigits(a: char, b: char)
    requires IsHexDigit(a) && IsHexDigit(b)
    ensures ToUint8(ParseIntHex([a, b])) == 16 * HexValue(a) + HexValue(b)
    ensures EncodeByte(16 * HexValue(a) + HexValue(b)) == [LowerChar(a), LowerChar(b)]
  {
    ParseTwoHexDigits(a, b);
    LowerHexOfValue(a);
    LowerHexOfValue(b);
    var x := 16 * HexValue(a) + HexValue(b);
    assert x / 16 == HexValue(a) && x % 16 == HexValue(b);
  }

  /** Two characters that are not line terminators make one chunk. */
  lemma DecodeHexPair(s: string)
    requires |s| >= 2 && !IsLineTerminator(s[0]) && !IsLineTerminator(s[1])
    ensures DecodeHex(s) == [ToUint8(ParseIntHex([s[0], s[1]]))] + DecodeHex(s[2..])
  {
    assert s[..2] == [s[0], s[1]];
    var cs := [s[..2]] + Chunks(s[2..]);
    assert Chunks(s) == cs;
    assert cs[1..] == Chunks(s[2..]);
  }

  lemma ToLowerPair(s: string)
    requires |s| >= 2
    ensures ToLower(s) == [LowerChar(s[0]), LowerChar(s[1])] + ToLower(s[2..])
  {
    var r := [LowerChar(s[0]), LowerChar(s[1])] + ToLower(s[2..]);
    assert |r| == |s|;
    forall i | 0 <= i < |s| ensures r[i] == ToLower(s)[i] {
      if i >= 2 {
        assert r[i] == ToLower(s[2..])[i - 2];
      }
    }
  }

  lemma DecodeHexDigits(s: string)
    requires |s| >= 2 && IsHex(s)
    ensures IsHex(s[2..])
    ensures DecodeHex(s) == [16 * HexValue(s[0]) + HexValue(s[1])] + DecodeHex(s[2..])
    ensures EncodeByte(16 * HexValue(s[0]) + HexValue(s[1])) == [LowerChar(s[0]), LowerChar(s[1])]
  {
    assert IsHexDigit(s[0]) && IsHexDigit(s[1]);
    ChunkOfTwoHexDigits(s[0], s[1]);
    DecodeHexPair(s);
    HexTail(s);
  }

  lemma HexTail(s: string)
    requires |s| >= 2 && IsHex(s)
    ensures IsHex(s[2..])
  {
    forall i | 0 <= i < |s[2..]| ensures IsHexDigit(s[2..][i]) {
      assert s[2..][i] == s[i + 2];
    }
  }

  /** Even-length hex text goes through the byte buffer and comes back in
      lower case. */
  lemma {:induction false} EncodeDecodeHex(s: string)
    requires IsHex(s) && |s| % 2 == 0
    ensures EncodeHex(DecodeHex(s)) == ToLower(s)
    decreases |s|
  {
    if |s| > 0 {
      DecodeHexDigits(s);
      var b: Byte := 16 * HexValue(s[0]) + HexValue(s[1]);
      var rest := DecodeHex(s[2..]);
      EncodeDecodeHex(s[2..]);
      assert ([b] + rest)[1..] == rest;
      ToLowerPair(s);
    }
  }

  /** Any buffer survives a trip through its hex text. */
  lemma {:induction false} DecodeEncodeHex(bytes: seq<Byte>)
    ensures DecodeHex(EncodeHex(bytes)) == bytes
  {
    if |bytes| > 0 {
      var b := bytes[0];
      var e := EncodeByte(b);
      assert IsHexDigit(e[0]) && IsHexDigit(e[1]);
      ChunkOfTwoHexDigits(e[0], e[1]);
      assert 16 * HexValue(e[0]) + HexValue(e[1]) == b;
      var s := EncodeHex(bytes);
      assert s == e + EncodeHex(bytes[1..]);
      assert s[2..] == EncodeHex(bytes[1..]);
      assert s[..2] == [e[0], e[1]];
      DecodeHexPair(s);
      DecodeEncodeHex(bytes[1..]);
      assert bytes == [b] + bytes[1..];
    }
  }

  lemma StrictKeyShape(key: string)
    requires IsStrictKey(key)
    ensures CleanKey(key) == key[2..] && IsHex(CleanKey(key)) && |CleanKey(key)| % 2 == 0
  {
  }

  /** A decrypted key of the strict shape fills a 32-byte buffer. */
  lemma StrictKeyIs32Bytes(key: string)
    requires IsStrictKey(key)
    ensures |DecodeHex(CleanKey(key))| == 32
  {
    var k := CleanKey(key);
    assert k == key[2..];
    EncodeDecodeHex(k);
  }

  datatype KeyError = NoKeySet

  /** The in-memory key store (src/v.2.4.16.tsx:20-47). */
  class SecureKeyHandler {
    var keyBuffer: array?<Byte>

    constructor()
      ensures keyBuffer == null
    {
      keyBuffer := null;
    }

    /** Replaces the held buffer by a fresh one decoded from the key. */
    method SetKey(privateKey: string)
      modifies this
      ensures keyBuffer != null && fresh(keyBuffer)
      ensures keyBuffer[..] == DecodeHex(CleanKey(privateKey))
      ensures IsHex(CleanKey(privateKey)) && |CleanKey(privateKey)| % 2 == 0 ==>
        HasKey() && GetKey() == Ok("0x" + ToLower(CleanKey(privateKey)))
    {
      var bytes := DecodeHex(CleanKey(privateKey));
      keyBuffer := new Byte[|bytes|](i requires 0 <= i < |bytes| => bytes[i]);
      assert keyBuffer[..] == bytes;
      if IsHex(CleanKey(privateKey)) && |CleanKey(privateKey)| % 2 == 0 {
        EncodeDecodeHex(CleanKey(privateKey));
      }
    }

    /** `'0x'` and two lower-case hex digits per held byte. */
    function GetKey(): (r: Result<string, KeyError>)
      reads this, keyBuffer
      ensures r.Err? <==> keyBuffer == null
      ensures r.Ok? ==> StartsWith(r.value, "0x") && |r.value| == 2 + 2 * keyBuffer.Length
      ensures r.Ok? ==> DecodeHex(CleanKey(r.value)) == keyBuffer[..]
    {
      if keyBuffer == null then Err(NoKeySet)
      else
        var s := "0x" + EncodeHex(keyBuffer[..]);
        DecodeEncodeHex(keyBuffer[..]);
        assert CleanKey(s) == EncodeHex(keyBuffer[..]);
        Ok(s)
    }

    /** Zeroes every held byte, then drops the buffer. */
    method ClearKey()
      modifies this, keyBuffer
      ensures keyBuffer == null
      ensures old(keyBuffer) != null ==> forall i :: 0 <= i < old(keyBuffer).Length ==> old(keyBuffer)[i] == 0
    {
      if keyBuffer != null {
        var buf := keyBuffer;
        var k := 0;
        while k < buf.Length
          invariant 0 <= k <= buf.Length
          invariant forall j :: 0 <= j < k ==> buf[j] == 0
        {
          buf[k] := 0;
          k := k + 1;
        }
        keyBuffer := null;
      }
    }

    predicate HasKey()
      reads this
    {
      keyBuffer != null
    }
  }

  /** A fresh handler holds nothing and refuses to give a key. */
  method NewHandlerIsEmpty() returns (h: SecureKeyHandler)
    ensures !h.HasKey() && h.GetKey() == Err(NoKeySet)
  {
    h := new SecureKeyHandler();
  }

  // ---------------------------------------------------------------------
  // The payment: prepare, then confirm or cancel
  // ---------------------------------------------------------------------

  /** A payment is prepared only with the strict 64-hex-digit key that the
      card's ciphertext decrypts to under this card's serial and PIN. */
  lemma PreparedKeyIsTheCardKey(
    card: Option<Card>, pin: string, amount: string, asset: Asset, to: string,
    endpoints: seq<Option<string>>, chain: Chain,
    aes: (string, string) -> Option<string>, derive: string -> string, units: Units)
    requires CheckPayment(card, pin, amount, asset, to, endpoints, chain, aes, derive, units).Ok?
    ensures var key := CheckPayment(card, pin, amount, asset, to, endpoints, chain, aes, derive, units).value.key;
      card.Some? && CipherText(card.value).Some?
      && aes(CipherText(card.value).value, Passphrase(SerialText(card.value), pin)) in {Some(key), Some(key[2..])}
      && |DecodeHex(CleanKey(key))| == 32
  {
    var key := CheckPayment(card, pin, amount, asset, to, endpoints, chain, aes, derive, units).value.key;
    StrictKeyIs32Bytes(key);
  }

  /** The screen state the payment flow of v.2.4.16 works on. */
  class PaymentSession {
    const keyHandler: SecureKeyHandler
    var card: Option<Card>
    var pin: string
    var pending: Option<Plan>

    constructor(handler: SecureKeyHandler)
      ensures keyHandler == handler && card.None? && pin == "" && pending.None?
    {
      keyHandler := handler;
      card := None;
      pin := "";
      pending := None;
    }

    /** `readNFCCard`: the parsed card becomes the current one. */
    method ReadCard(tag: Tag, json: string -> Option<Card>) returns (r: Result<Card, ReadError>)
      modifies this
      ensures r == ParseTag(tag, json)
      ensures r.Ok? ==> card == Some(r.value)
      ensures r.Err? ==> card == old(card)
      ensures pin == old(pin) && pending == old(pending)
    {
      r := ParseTag(tag, json);
      if r.Ok? {
        card := Some(r.value);
      }
    }

    /** The first half of `prepareTransaction`: connect, decrypt into the
        key handler and fill in a missing card address. */
    method Unlock(endpoints: seq<Option<string>>, up: string -> bool,
                  aes: (string, string) -> Option<string>, derive: string -> string)
      returns (r: Result<string, PayError>)
      requires card.Some?
      modifies this, keyHandler, keyHandler.keyBuffer
      ensures r == Err(NoProvider) <==> FirstResponder(Configured(endpoints), up).None?
      ensures r.Err? ==> r.error in {NoProvider, WrongPin} && card == old(card) && keyHandler.keyBuffer == null
      ensures r.Err? && r.error == WrongPin ==> DecryptCard(aes, old(card).value, pin).Err?
      ensures r.Ok? ==>
        FirstResponder(Configured(endpoints), up).Some?
        && DecryptCard(aes, old(card).value, pin) == Ok(r.value)
        && keyHandler.HasKey() && keyHandler.GetKey() == Ok("0x" + ToLower(r.value[2..]))
        && card == Some(FilledCard(old(card).value, derive(r.value)))
      ensures keyHandler.keyBuffer == null || fresh(keyHandler.keyBuffer)
      ensures pin == old(pin) && pending == old(pending)
    {
      var provider, probed := GetProvider(endpoints, up);
      if provider.Err? {
        keyHandler.ClearKey();
        return Err(NoProvider);
      }
      var decrypted := DecryptCard(aes, card.value, pin);
      if decrypted.Err? {
        keyHandler.ClearKey();
        return Err(WrongPin);
      }
      var key := decrypted.value;
      StrictKeyShape(key);
      keyHandler.SetKey(key);
      var wallet := derive(key);
      if !Truthy(card.value.addr) {
        card := Some(card.value.(addr := Some(wallet)));
      }
      r := Ok(key);
    }

    /** `prepareTransaction`: with all input present, connect, decrypt
        into the key handler, fill in a missing card address, then run the
        checks; on success the plan becomes pending, on any failure the key
        handler is emptied. */
    method PrepareTransaction(
      amount: string, asset: Asset, to: string, endpoints: seq<Option<string>>, chain: Chain,
      aes: (string, string) -> Option<string>, derive: string -> string, units: Units)
      returns (r: Result<Plan, PayError>)
      modifies this, keyHandler, keyHandler.keyBuffer
      ensures var outcome := CheckPayment(old(card), old(pin), amount, asset, to, endpoints, chain, aes, derive, units);
        (r.Ok? <==> outcome.Ok?) && (r.Ok? ==> r.value == outcome.value.plan) && (r.Err? ==> r.error == outcome.error)
      ensures r == Err(MissingInfo) ==>
        card == old(card) && pending == old(pending) && keyHandler.keyBuffer == old(keyHandler.keyBuffer)
        && (keyHandler.keyBuffer != null ==> keyHandler.keyBuffer[..] == old(keyHandler.keyBuffer[..]))
      ensures r.Err? && r.error != MissingInfo ==> keyHandler.keyBuffer == null && pending == old(pending)
      ensures r.Ok? ==>
        var key := CheckPayment(old(card), old(pin), amount, asset, to, endpoints, chain, aes, derive, units).value.key;
        pending == Some(r.value) && keyHandler.HasKey()
        && keyHandler.GetKey() == Ok("0x" + ToLower(key[2..]))
      ensures var decrypted := if old(card).Some? then DecryptCard(aes, old(card).value, old(pin)) else Err(DecryptError.InvalidPin);
        if r.Err? && r.error in {MissingInfo, NoProvider, WrongPin} then card == old(card)
        else decrypted.Ok? && card == Some(FilledCard(old(card).value, derive(decrypted.value)))
      ensures pin == old(pin)
    {
      if card.None? || pin == "" || amount == "" {
        return Err(MissingInfo);
      }
      ghost var outcome := CheckPayment(card, pin, amount, asset, to, endpoints, chain, aes, derive, units);
      var unlocked := Unlock(endpoints, chain.up, aes, derive);
      if unlocked.Err? {
        assert outcome == Err(unlocked.error);
        return Err(unlocked.error);
      }
      var key := unlocked.value;
      var plan := PlanPayment(asset, amount, derive(key), to, chain, units);
      if plan.Err? {
        keyHandler.ClearKey();
        assert outcome == Err(plan.error);
        return Err(plan.error);
      }
      assert outcome == Ok(Prepared(key, plan.value));
      pending := Some(plan.value);
      r := Ok(plan.value);
    }

    /** `confirmTransaction`: send the pending request (the coin branch or
        the token branch, as the selection says); whatever happens, the key
        is wiped and nothing stays pending. */
    method ConfirmTransaction(nativeSelected: bool, submit: TxRequest -> Option<string>)
      returns (r: Result<string, PayError>)
      modifies this, keyHandler, keyHandler.keyBuffer
      ensures keyHandler.keyBuffer == null && pending.None?
      ensures old(keyHandler.keyBuffer) != null ==>
        forall i :: 0 <= i < old(keyHandler.keyBuffer).Length ==> old(keyHandler.keyBuffer)[i] == 0
      ensures r == Err(NoPendingTransaction) <==> old(pending).None? || old(keyHandler.keyBuffer) == null
      ensures r.Ok? ==>
        old(pending).Some? && nativeSelected == old(pending).value.tx.NativeTransfer?
        && submit(old(pending).value.tx) == Some(r.value) && pin == ""
      ensures old(pending).Some? && old(keyHandler.keyBuffer) != null ==>
        var tx := old(pending).value.tx;
        r == (if nativeSelected != tx.NativeTransfer? then Err(SubmitFailed)
              else if submit(tx).Some? then Ok(submit(tx).value)
              else Err(SubmitFailed))
      ensures r.Err? ==> pin == old(pin)
      ensures card == old(card)
    {
      if pending.None? || !keyHandler.HasKey() {
        r := Err(NoPendingTransaction);
      } else if nativeSelected != pending.value.tx.NativeTransfer? {
        r := Err(SubmitFailed);
      } else {
        match submit(pending.value.tx)
        case None =>
          r := Err(SubmitFailed);
        case Some(hash) =>
          pin := "";
          r := Ok(hash);
      }
      keyHandler.ClearKey();
      pending := None;
    }

    /** `cancelTransaction`, also run when the preview is dismissed. */
    method CancelTransaction()
      modifies this, keyHandler, keyHandler.keyBuffer
      ensures keyHandler.keyBuffer == null && pending.None?
      ensures old(keyHandler.keyBuffer) != null ==>
        forall i :: 0 <= i < old(keyHandler.keyBuffer).Length ==> old(keyHandler.keyBuffer)[i] == 0
      ensures card == old(card) && pin == old(pin)
    {
      pending := None;
      keyHandler.ClearKey();
    }
  }
}
