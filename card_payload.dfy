/** Reading a payment card: the first NDEF record's payload is an NFC Forum
    Text record (section 3.2.1 of the NFC Forum Text Record Type
    Definition: a status byte and, on these cards, a two-letter language
    code come before the text). The text is either the card as JSON or, on
    older cards, `encryptedKey|ensName`. `JSON.parse` is the input `json`,
    `None` when it throws. */
module CardPayload {
  import opened Common

  /** The card record as the app holds it (`cardData`); every field may be
      absent from the JSON. */
  datatype Card = Card(
    encPrivKey: Option<string>,
    ekey: Option<string>,
    serial: Option<string>,
    addr: Option<string>,
    ens: Option<string>)

  /** What `NfcManager.getTag()` gave: the tag id and the payload of the
      first NDEF record, `None` when the tag, its message or the payload is
      missing (or the scan timed out). */
  datatype Tag = Tag(id: Option<string>, payload: Option<seq<Byte>>)

  datatype ReadError = NoDataOnCard | InvalidCardFormat | UnparsableCard

  /** The number of header bytes before the text. */
  const TextHeaderLength: nat := 3

  /** `String.fromCharCode(...bytes.slice(3))` */
  function PayloadText(payload: seq<Byte>): (text: string)
    ensures |text| == if |payload| <= TextHeaderLength then 0 else |payload| - TextHeaderLength
    ensures forall i :: 0 <= i < |text| ==> text[i] as int == payload[i + TextHeaderLength]
  {
    if |payload| <= TextHeaderLength then []
    else seq(|payload| - TextHeaderLength, i requires 0 <= i < |payload| - TextHeaderLength => payload[i + TextHeaderLength] as char)
  }

  /** The bytes a card writer stores for a text of single-byte characters. */
  function TextBytes(text: string): (bytes: seq<Byte>)
    requires forall i :: 0 <= i < |text| ==> text[i] as int < 256
    ensures |bytes| == |text|
  {
    seq(|text|, i requires 0 <= i < |text| => text[i] as int)
  }

  /** Whatever the header, the text written after it is read back as it
      was written. */
  lemma PayloadTextRoundTrip(header: seq<Byte>, text: string)
    requires |header| == TextHeaderLength
    requires forall i :: 0 <= i < |text| ==> text[i] as int < 256
    ensures PayloadText(header + TextBytes(text)) == text
  {
    var p := header + TextBytes(text);
    var t := PayloadText(p);
    assert |t| == |text|;
    forall i | 0 <= i < |text|
      ensures t[i] == text[i]
    {
      assert p[i + TextHeaderLength] == text[i] as int;
    }
  }

  /** The position of the first `c` in `s`, if any. */
  function IndexOf(s: string, c: char): (r: Option<nat>)
    ensures r.Some? ==> r.value < |s| && s[r.value] == c && c !in s[..r.value]
    ensures r.None? <==> c !in s
  {
    if |s| == 0 then None
    else if s[0] == c then Some(0)
    else
      match IndexOf(s[1..], c)
      case None => None
      case Some(i) =>
        assert s[..i + 1] == [s[0]] + s[1..][..i];
        Some(i + 1)
  }

  /** `const [part0, part1] = text.split('|')`: everything before the first
      bar, and what lies between the first and the second bar (`undefined`
      without a bar). */
  function SplitFields(text: string): (string, Option<string>) {
    match IndexOf(text, '|')
    case None => (text, None)
    case Some(i) =>
      var rest := text[i + 1..];
      match IndexOf(rest, '|')
      case None => (text[..i], Some(rest))
      case Some(j) => (text[..i], Some(rest[..j]))
  }

  lemma IndexOfAfter(a: string, b: string, c: char)
    requires c !in a
    ensures IndexOf(a + [c] + b, c) == Some(|a|)
  {
    var s := a + [c] + b;
    assert s[|a|] == c;
    assert s[..|a|] == a;
  }

  /** Splitting undoes the writer's join of key and name. */
  lemma {:induction false} SplitJoin(encKey: string, ensName: string)
    requires '|' !in encKey && '|' !in ensName
    ensures SplitFields(encKey + "|" + ensName) == (encKey, Some(ensName))
  {
    var text := encKey + "|" + ensName;
    IndexOfAfter(encKey, ensName, '|');
    assert text[..|encKey|] == encKey;
    assert text[|encKey| + 1..] == ensName;
  }

  /** Text without a bar is all key and no name. */
  lemma SplitNoBar(text: string)
    requires '|' !in text
    ensures SplitFields(text) == (text, None)
  {
  }

  /** `tag.id || 'UNKNOWN'` */
  function TagSerial(id: Option<string>): (serial: string)
    ensures Truthy(id) ==> serial == id.value
    ensures !Truthy(id) ==> serial == "UNKNOWN"
  {
    if Truthy(id) then id.value else "UNKNOWN"
  }

  /** The payload parse of `readNFCCard` in v.2.4.16 and v2.4.8: JSON when
      it parses, otherwise the bar-separated form, whose card has no
      address, a serial from the tag id and a name only when non-empty. */
  function ParseTag(tag: Tag, json: string -> Option<Card>): (r: Result<Card, ReadError>)
    ensures tag.payload.None? <==> r == Err(NoDataOnCard)
    ensures r.Err? ==> r.error == NoDataOnCard
    ensures tag.payload.Some? && json(PayloadText(tag.payload.value)).Some? ==>
      r == Ok(json(PayloadText(tag.payload.value)).value)
    ensures tag.payload.Some? && json(PayloadText(tag.payload.value)).None? ==>
      r.Ok? && r.value.addr.None? && r.value.ekey.None?
      && r.value.serial == Some(TagSerial(tag.id))
      && r.value.encPrivKey.Some? && '|' !in r.value.encPrivKey.value
      && (r.value.ens.Some? ==> r.value.ens.value != "" && '|' !in r.value.ens.value)
    ensures tag.payload.Some? && json(PayloadText(tag.payload.value)).None? ==>
      var text := PayloadText(tag.payload.value);
      var key := r.value.encPrivKey.value;
      ('|' !in text ==> key == text && r.value.ens.None?)
      && ('|' in text ==>
            key + "|" <= text
            && (r.value.ens.Some? ==>
                  var e := r.value.ens.value;
                  key + "|" + e <= text && (|key| + 1 + |e| == |text| || text[|key| + 1 + |e|] == '|'))
            && (r.value.ens.None? ==> |key| + 1 == |text| || text[|key| + 1] == '|'))
  {
    match tag.payload
    case None => Err(NoDataOnCard)
    case Some(bytes) =>
      var text := PayloadText(bytes);
      match json(text)
      case Some(card) => Ok(card)
      case None =>
        var (encPrivKey, ensName) := SplitFields(text);
        Ok(Card(Some(encPrivKey), None, Some(TagSerial(tag.id)), None,
                if Truthy(ensName) then ensName else None))
  }

  /** A card written as `key|name` (not valid JSON) reads back as that key
      and name, the tag id as its serial and no address. */
  lemma ParseTagSplitCard(header: seq<Byte>, id: Option<string>, encKey: string, ensName: string, json: string -> Option<Card>)
    requires |header| == TextHeaderLength
    requires '|' !in encKey && '|' !in ensName && ensName != ""
    requires forall i :: 0 <= i < |encKey + "|" + ensName| ==> (encKey + "|" + ensName)[i] as int < 256
    requires json(encKey + "|" + ensName).None?
    ensures ParseTag(Tag(id, Some(header + TextBytes(encKey + "|" + ensName))), json)
      == Ok(Card(Some(encKey), None, Some(TagSerial(id)), None, Some(ensName)))
  {
    PayloadTextRoundTrip(header, encKey + "|" + ensName);
    SplitJoin(encKey, ensName);
  }

  /** `cardData.encPrivKey || cardData.ekey`: the ciphertext handed to
      the decryption; `None` stands for `undefined`. */
  function CipherText(card: Card): (c: Option<string>)
    ensures Truthy(card.encPrivKey) ==> c == card.encPrivKey
    ensures !Truthy(card.encPrivKey) ==> c == card.ekey
  {
    if Truthy(card.encPrivKey) then card.encPrivKey else card.ekey
  }

  /** The serial as it appears inside a template string: a missing serial
      is rendered as the text "undefined". */
  function SerialText(card: Card): (s: string)
    ensures card.serial.Some? ==> s == card.serial.value
    ensures card.serial.None? ==> s == "undefined"
  {
    if card.serial.Some? then card.serial.value else "undefined"
  }
}
