/**
 * The NDEF well-known Text record as the plugin writes and reads it
 * (NFC Forum Text Record Type Definition): a status byte whose low six bits
 * are the length of the language code, the language code, then the text.
 * The plugin always writes the language code "en" and a UTF-8 body.
 */
module NdefText {
  import opened Bytes
  import opened Wrappers
  import HexCodec

  /** `NdefRecord.TNF_WELL_KNOWN`. */
  const TNF_WELL_KNOWN: byte := 1
  /** `NdefRecord.RTD_TEXT`, the type "T". */
  const RTD_TEXT: seq<byte> := [0x54]
  /** `"en".getBytes(StandardCharsets.US_ASCII)`. */
  const LANG_EN: seq<byte> := [0x65, 0x6E]
  /** The largest status byte + language + text the plugin accepts. */
  const MAX_TEXT_PAYLOAD := 0xFF

  /** An NDEF record: type name format, type, identifier and payload. */
  datatype Record = Record(tnf: byte, recordType: seq<byte>, id: seq<byte>, payload: seq<byte>)

  /** The Text record payload for `text`: `[2] "en" utf8(text)`. */
  function TextPayload(text: string): seq<byte>
  {
    [|LANG_EN|] + LANG_EN + Utf8Encode(text)
  }

  /** The record `createTextRecord` builds around the payload. */
  function TextRecord(text: string): Record
  {
    Record(TNF_WELL_KNOWN, RTD_TEXT, [], TextPayload(text))
  }

  /**
   * `createTextRecord`: `None` (Java null) for an empty text or one whose
   * payload would exceed 255 bytes, otherwise the Text record.
   */
  method CreateTextRecord(text: string) returns (r: Option<Record>)
    ensures r.None? <==> (text == "" || 1 + |LANG_EN| + |Utf8Encode(text)| > MAX_TEXT_PAYLOAD)
    ensures r.Some? ==> r.value == TextRecord(text)
    ensures r.Some? ==> r.value.tnf == TNF_WELL_KNOWN && r.value.recordType == RTD_TEXT && r.value.id == []
    ensures r.Some? ==> var p := r.value.payload;
      && |p| == 3 + |Utf8Encode(text)| <= MAX_TEXT_PAYLOAD
      && p[0] == 2 && p[1..3] == LANG_EN && p[3..] == Utf8Encode(text)
  {
    if text == "" {
      return None;
    }
    var langBytes := LANG_EN;
    var textBytes := Utf8Encode(text);
    var langLength := |langBytes|;
    var textLength := |textBytes|;
    if 1 + langLength + textLength > MAX_TEXT_PAYLOAD {
      return None;
    }
    var payload := new byte[1 + langLength + textLength];
    payload[0] := langLength;
    CopyInto(langBytes, payload, 1);
    CopyInto(textBytes, payload, 1 + langLength);
    assert payload[..] == TextPayload(text);
    r := Some(Record(TNF_WELL_KNOWN, RTD_TEXT, [], payload[..]));
  }

  /**
   * The payload string `handleNdefMessage` reports for a record, as the
   * bytes it hands to the UTF-8 decoder: for a Text record, the bytes after
   * the language code, whose length is the status byte masked with 0x3F
   * (empty when that length does not fit); for any other type, the whole
   * payload; for an empty payload, nothing.
   */
  function PayloadText(recordType: seq<byte>, payload: seq<byte>): (text: seq<byte>)
    ensures recordType != RTD_TEXT ==> text == payload
    ensures recordType == RTD_TEXT && payload != [] ==>
      |text| == if payload[0] % 64 < |payload| then |payload| - 1 - payload[0] % 64 else 0
  {
    if |payload| == 0 then []
    else if recordType == RTD_TEXT then
      var languageCodeLength := payload[0] % 0x40;
      if languageCodeLength < |payload| then payload[languageCodeLength + 1..] else []
    else payload
  }

  /** The payload text is always a suffix of the payload: decoding only drops a prefix. */
  lemma PayloadTextIsSuffix(recordType: seq<byte>, payload: seq<byte>)
    ensures var text := PayloadText(recordType, payload);
      |text| <= |payload| && text == payload[|payload| - |text|..]
  {
  }

  /**
   * A Text payload decodes to its body whatever its language code, and the
   * two status bits above the length (the UTF-16 flag and the reserved bit)
   * do not disturb it.
   */
  lemma TextPayloadBody(status: nat, lang: seq<byte>, body: seq<byte>)
    requires status < 4 && |lang| < 0x40
    ensures PayloadText(RTD_TEXT, [status * 0x40 + |lang|] + lang + body) == body
  {
    var p := [status * 0x40 + |lang|] + lang + body;
    assert p[0] % 0x40 == |lang|;
    assert p[|lang| + 1..] == body;
  }

  /** Round trip: reading back a record `createTextRecord` built gives the text's UTF-8 bytes. */
  lemma DecodeTextRecord(text: string)
    ensures PayloadText(TextRecord(text).recordType, TextRecord(text).payload) == Utf8Encode(text)
  {
    TextPayloadBody(0, LANG_EN, Utf8Encode(text));
  }

  /** Reading a payload of another type yields the payload; an empty payload yields nothing. */
  lemma OtherPayloads(recordType: seq<byte>, payload: seq<byte>)
    ensures recordType != RTD_TEXT ==> PayloadText(recordType, payload) == payload
    ensures PayloadText(recordType, []) == []
  {
  }

  /** What `handleNdefMessage` reports of one record. */
  datatype RecordInfo = RecordInfo(recordType: seq<byte>, payload: seq<byte>, identifier: string)

  /** The entry for one record: its type, its payload text and its identifier in hex. */
  function DescribeRecord(r: Record): RecordInfo
  {
    RecordInfo(r.recordType, PayloadText(r.recordType, r.payload), HexCodec.Hex(r.id))
  }

  /** The entries `handleNdefMessage` builds for a message: one per record, in order. */
  function DescribeMessage(records: seq<Record>): (infos: seq<RecordInfo>)
    ensures |infos| == |records|
    ensures forall i :: 0 <= i < |records| ==> infos[i] == DescribeRecord(records[i])
  {
    seq(|records|, i requires 0 <= i < |records| => DescribeRecord(records[i]))
  }

  /**
   * The loop of `handleNdefMessage`: one entry per record, in order, with the
   * record's type, its payload text and its identifier in hex ("" when it has none).
   */
  method HandleNdefMessage(records: seq<Record>) returns (infos: seq<RecordInfo>)
    ensures infos == DescribeMessage(records)
    ensures |infos| == |records|
    ensures forall i :: 0 <= i < |records| ==> infos[i] == DescribeRecord(records[i])
    ensures forall i :: 0 <= i < |records| ==> (records[i].id == [] <==> infos[i].identifier == "")
  {
    infos := [];
    var i := 0;
    while i < |records|
      invariant 0 <= i <= |records| && |infos| == i
      invariant forall j :: 0 <= j < i ==> infos[j] == DescribeRecord(records[j])
      invariant forall j :: 0 <= j < i ==> (records[j].id == [] <==> infos[j].identifier == "")
    {
      var rec := records[i];
      var payloadString := PayloadText(rec.recordType, rec.payload);
      var identifier := "";
      if |rec.id| > 0 {
        identifier := HexCodec.BytesToHexString(rec.id);
      }
      HexCodec.HexEmpty(rec.id);
      assert identifier == HexCodec.Hex(rec.id) && (rec.id == [] <==> identifier == "");
      var info := RecordInfo(rec.recordType, payloadString, identifier);
      assert info == DescribeRecord(rec);
      infos := infos + [info];
      i := i + 1;
    }
  }
}
