/**
 * The reader-side tag sessions of the plugin: `writeNdefMessage` and the
 * three writers it dispatches to (`writeToIsoDep`, `writeToNdefTag`,
 * `writeToFormattableTag`), and `readTag`. Every I/O call's result comes
 * from the tag's observations (module Tags).
 */
module TagIo {
  import opened Bytes
  import opened Wrappers
  import opened HexCodec
  import opened Apdu
  import opened NdefText
  import opened Tags

  /** The AID `write` uses when the call gives none. */
  const DEFAULT_AID: string := "F0010203040506"

  /** `WriteParameters`: what a reader-mode `write` stores for the next tag. */
  datatype WriteParameters = WriteParameters(text: string, cardType: string, aid: string, secure: bool, timeout: int)

  /** Why a write failed; each is reported as a `writeError` event. */
  datatype WriteError =
    | ConnectFailed                         // connect() threw
    | RecordCreationFailed                  // "Failed to create NDEF record"
    | ReadOnly                              // "Tag is read-only"
    | InsufficientSpace(required: nat, available: int)
    | TransferFailed                        // writeNdefMessage, format or transceive threw
    | SelectFailed(aid: string)             // "Failed to select application with AID: " + aid
    | WriteCommandFailed(response: string)  // "Write command failed. Response: " + hex
    | ShortReadResponse                     // new String(r, 0, r.length - 2) with r.length < 2
    | NoWriteMethod                         // "Tag doesn't support any known write methods"

  /** The event a write ends with. */
  datatype WriteOutcome =
    | IsoDepWritten(bytesWritten: nat, aid: string, verifiedData: seq<byte>)  // writeSuccess, type ISO_DEP
    | IsoDepRead(aid: string, data: seq<byte>)                                // readSuccess, type ISO_DEP
    | NdefWritten(size: nat, maxSize: int)                                    // writeSuccess, type NDEF
    | Formatted                                                               // writeSuccess, type FORMATTED
    | WriteFailed(error: WriteError)                                          // writeError

  /** The commands an ISO-DEP session sent, in order, and how it ended. */
  datatype Session = Session(sent: seq<seq<byte>>, outcome: WriteOutcome)

  /** A READ response without its last two (status) bytes, as `new String(r, 0, r.length - 2)` takes it. */
  function ReadData(response: seq<byte>, success: seq<byte> -> WriteOutcome): WriteOutcome
  {
    if |response| < 2 then WriteFailed(ShortReadResponse) else success(response[..|response| - 2])
  }

  /**
   * The ISO-DEP write protocol of `writeToIsoDep`: SELECT the application by
   * its AID; if that is answered `90 00` and there is text, WRITE its UTF-8
   * bytes, and if that is answered `90 00`, READ back; with no text, only
   * READ. The READ answer's status is not checked.
   */
  function IsoDepSession(link: IsoDepLink, text: string, aid: string): Session
    requires IsHexString(aid)
  {
    if !link.connects then Session([], WriteFailed(ConnectFailed))
    else
      var select := CommandWithData(SELECT_HEADER, ParseHex(aid));
      match link.transceive(0, select)
      case None => Session([select], WriteFailed(TransferFailed))
      case Some(selectResponse) =>
        if !IsSuccessful(selectResponse) then Session([select], WriteFailed(SelectFailed(aid)))
        else if text != "" then
          var textBytes := Utf8Encode(text);
          var write := CommandWithData(WRITE_HEADER, textBytes);
          match link.transceive(1, write)
          case None => Session([select, write], WriteFailed(TransferFailed))
          case Some(writeResponse) =>
            if !IsSuccessful(writeResponse) then
              Session([select, write], WriteFailed(WriteCommandFailed(Hex(writeResponse))))
            else
              match link.transceive(2, READ_COMMAND)
              case None => Session([select, write, READ_COMMAND], WriteFailed(TransferFailed))
              case Some(readResponse) =>
                Session([select, write, READ_COMMAND],
                  ReadData(readResponse, data => IsoDepWritten(|textBytes|, aid, data)))
        else
          match link.transceive(1, READ_COMMAND)
          case None => Session([select, READ_COMMAND], WriteFailed(TransferFailed))
          case Some(readResponse) =>
            Session([select, READ_COMMAND], ReadData(readResponse, data => IsoDepRead(aid, data)))
  }

  /** The command shapes on the wire: SELECT `00 A4 04 00 Lc AID`, WRITE `00 D0 00 00 Lc text`, READ `00 D0 01 00`. */
  lemma IsoDepCommands(link: IsoDepLink, text: string, aid: string)
    requires IsHexString(aid)
    ensures var s := IsoDepSession(link, text, aid);
      && |s.sent| <= 3
      && (|s.sent| > 0 ==>
            s.sent[0] == [0x00, 0xA4, 0x04, 0x00, TruncateToByte(|aid| / 2)] + ParseHex(aid)
            && |s.sent[0]| == 5 + |aid| / 2)
      && (text != "" && |s.sent| > 1 ==>
           s.sent[1] == [0x00, 0xD0, 0x00, 0x00, TruncateToByte(|Utf8Encode(text)|)] + Utf8Encode(text)
           && |s.sent[1]| == 5 + |Utf8Encode(text)|)
      && (text != "" && |s.sent| == 3 ==> s.sent[2] == [0x00, 0xD0, 0x01, 0x00])
      && (text == "" && |s.sent| > 1 ==> |s.sent| == 2 && s.sent[1] == [0x00, 0xD0, 0x01, 0x00])
  {
    var s := IsoDepSession(link, text, aid);
    if link.connects {
      var select := CommandWithData(SELECT_HEADER, ParseHex(aid));
      CommandLayout(SELECT_HEADER, ParseHex(aid));
      assert s.sent[0] == select;
      if text != "" {
        CommandLayout(WRITE_HEADER, Utf8Encode(text));
        SessionSendsWrite(link, text, aid);
      } else {
        SessionSendsRead(link, aid);
      }
    }
  }

  /** A command with data is its four header bytes, its Lc and its data. */
  lemma CommandLayout(header: seq<byte>, data: seq<byte>)
    requires |header| == 4
    ensures CommandWithData(header, data) == [header[0], header[1], header[2], header[3], TruncateToByte(|data|)] + data
    ensures |CommandWithData(header, data)| == 5 + |data|
  {
  }

  /** The commands after the SELECT when there is text: the WRITE, then the READ. */
  lemma SessionSendsWrite(link: IsoDepLink, text: string, aid: string)
    requires IsHexString(aid) && link.connects && text != ""
    ensures var s := IsoDepSession(link, text, aid);
      1 <= |s.sent| <= 3
      && (|s.sent| > 1 ==> s.sent[1] == CommandWithData(WRITE_HEADER, Utf8Encode(text)))
      && (|s.sent| == 3 ==> s.sent[2] == READ_COMMAND)
  {
    var select := CommandWithData(SELECT_HEADER, ParseHex(aid));
    var write := CommandWithData(WRITE_HEADER, Utf8Encode(text));
    var s := IsoDepSession(link, text, aid);
    match link.transceive(0, select)
    case None =>
      assert s.sent == [select];
    case Some(r0) =>
      if !IsSuccessful(r0) {
        assert s.sent == [select];
      } else {
        assert s.sent[..2] == [select, write];
      }
  }

  /** The command after the SELECT when there is no text: the READ alone. */
  lemma SessionSendsRead(link: IsoDepLink, aid: string)
    requires IsHexString(aid) && link.connects
    ensures var s := IsoDepSession(link, "", aid);
      1 <= |s.sent| <= 2 && (|s.sent| == 2 ==> s.sent[1] == READ_COMMAND)
  {
  }

  /**
   * Nothing is written unless every checked answer ends in `90 00`: a
   * successful write had its SELECT and its WRITE both answered `90 00`,
   * and the verified data is the READ answer minus its two status bytes.
   */
  lemma IsoDepWriteNeedsSuccess(link: IsoDepLink, text: string, aid: string)
    requires IsHexString(aid)
    ensures var s := IsoDepSession(link, text, aid);
      s.outcome.IsoDepWritten? ==>
        && text != "" && |s.sent| == 3
        && link.transceive(0, s.sent[0]).Some? && IsSuccessful(link.transceive(0, s.sent[0]).value)
        && link.transceive(1, s.sent[1]).Some? && IsSuccessful(link.transceive(1, s.sent[1]).value)
        && link.transceive(2, s.sent[2]).Some?
        && var r := link.transceive(2, s.sent[2]).value;
           |r| >= 2 && s.outcome.verifiedData == r[..|r| - 2]
           && s.outcome.bytesWritten == |Utf8Encode(text)| && s.outcome.aid == aid
    ensures var s := IsoDepSession(link, text, aid);
      link.connects && link.transceive(0, s.sent[0]).Some? && !IsSuccessful(link.transceive(0, s.sent[0]).value) ==>
        s.outcome == WriteFailed(SelectFailed(aid)) && |s.sent| == 1
  {
    if link.connects {
      var select := CommandWithData(SELECT_HEADER, ParseHex(aid));
      var s := IsoDepSession(link, text, aid);
      assert s.sent[0] == select;
      match link.transceive(0, select)
      case None =>
      case Some(r0) =>
        if IsSuccessful(r0) && text != "" {
          var write := CommandWithData(WRITE_HEADER, Utf8Encode(text));
          match link.transceive(1, write)
          case None =>
          case Some(r1) =>
            if IsSuccessful(r1) {
              assert s.sent == [select, write, READ_COMMAND];
            }
        }
    }
  }

  /** `writeToIsoDep`, building each command in an array as the source does. */
  method WriteToIsoDep(link: IsoDepLink, text: string, aid: string, timeout: int) returns (s: Session)
    requires IsHexString(aid)
    ensures s == IsoDepSession(link, text, aid)
  {
    if !link.connects {
      return Session([], WriteFailed(ConnectFailed));
    }
    var aidBytes := HexStringToByteArray(aid);
    var selectAid := BuildCommand(SELECT_HEADER, aidBytes);
    var selectResponse := link.transceive(0, selectAid);
    if selectResponse.None? {
      return Session([selectAid], WriteFailed(TransferFailed));
    }
    if !IsSuccessful(selectResponse.value) {
      return Session([selectAid], WriteFailed(SelectFailed(aid)));
    }
    if text != "" {
      var textBytes := Utf8Encode(text);
      var writeCommand := BuildCommand(WRITE_HEADER, textBytes);
      var writeResponse := link.transceive(1, writeCommand);
      if writeResponse.None? {
        return Session([selectAid, writeCommand], WriteFailed(TransferFailed));
      }
      if !IsSuccessful(writeResponse.value) {
        var hex := BytesToHexString(writeResponse.value);
        return Session([selectAid, writeCommand], WriteFailed(WriteCommandFailed(hex)));
      }
      var readResponse := link.transceive(2, READ_COMMAND);
      if readResponse.None? {
        return Session([selectAid, writeCommand, READ_COMMAND], WriteFailed(TransferFailed));
      }
      var r := readResponse.value;
      if |r| < 2 {
        return Session([selectAid, writeCommand, READ_COMMAND], WriteFailed(ShortReadResponse));
      }
      s := Session([selectAid, writeCommand, READ_COMMAND], IsoDepWritten(|textBytes|, aid, r[..|r| - 2]));
    } else {
      var readResponse := link.transceive(1, READ_COMMAND);
      if readResponse.None? {
        return Session([selectAid, READ_COMMAND], WriteFailed(TransferFailed));
      }
      var r := readResponse.value;
      if |r| < 2 {
        return Session([selectAid, READ_COMMAND], WriteFailed(ShortReadResponse));
      }
      s := Session([selectAid, READ_COMMAND], IsoDepRead(aid, r[..|r| - 2]));
    }
  }

  /**
   * The outcome of writing `text` to an NDEF tag: connect, build the Text
   * record, then refuse a read-only tag or one whose capacity is below the
   * message's serialized size, else write.
   */
  function NdefWriteOutcome(link: NdefLink, text: string, sizeOf: seq<Record> -> nat): WriteOutcome
  {
    if !link.connects then WriteFailed(ConnectFailed)
    else if text == "" || 3 + |Utf8Encode(text)| > MAX_TEXT_PAYLOAD then WriteFailed(RecordCreationFailed)
    else if !link.isWritable then WriteFailed(ReadOnly)
    else if link.maxSize < sizeOf([TextRecord(text)]) then
      WriteFailed(InsufficientSpace(sizeOf([TextRecord(text)]), link.maxSize))
    else if !link.acceptsWrite then WriteFailed(TransferFailed)
    else NdefWritten(sizeOf([TextRecord(text)]), link.maxSize)
  }

  /** The outcome of formatting a tag with a Text record of `text`. */
  function FormatOutcome(link: FormatableLink, text: string): WriteOutcome
  {
    if !link.connects then WriteFailed(ConnectFailed)
    else if text == "" || 3 + |Utf8Encode(text)| > MAX_TEXT_PAYLOAD then WriteFailed(RecordCreationFailed)
    else if !link.acceptsFormat then WriteFailed(TransferFailed)
    else Formatted
  }

  /** The outcome of a stored write on a tag: the technology `WriteTech` picks decides the writer. */
  function WriteOutcomeFor(tag: Tag, params: WriteParameters, sizeOf: seq<Record> -> nat): WriteOutcome
    requires IsHexString(params.aid)
  {
    var tech := WriteTech(tag.techs);
    if tech == Some(IsoDep) then IsoDepSession(tag.isoDep, params.text, params.aid).outcome
    else if tech == Some(Ndef) then NdefWriteOutcome(tag.ndef, params.text, sizeOf)
    else if tech == Some(NdefFormatable) then FormatOutcome(tag.formatable, params.text)
    else WriteFailed(NoWriteMethod)
  }

  /**
   * `writeToNdefTag`: connect, build the Text record, then refuse a
   * read-only tag or one whose capacity is below the message size, else
   * write. `sizeOf` is the platform's serialized message size.
   */
  method WriteToNdefTag(link: NdefLink, text: string, sizeOf: seq<Record> -> nat) returns (outcome: WriteOutcome)
    ensures outcome == NdefWriteOutcome(link, text, sizeOf)
    ensures !link.connects ==> outcome == WriteFailed(ConnectFailed)
    ensures link.connects && (text == "" || 3 + |Utf8Encode(text)| > MAX_TEXT_PAYLOAD) ==>
      outcome == WriteFailed(RecordCreationFailed)
    ensures outcome.NdefWritten? <==>
      link.connects && text != "" && 3 + |Utf8Encode(text)| <= MAX_TEXT_PAYLOAD &&
      link.isWritable && sizeOf([TextRecord(text)]) <= link.maxSize && link.acceptsWrite
    ensures outcome.NdefWritten? ==> outcome == NdefWritten(sizeOf([TextRecord(text)]), link.maxSize)
    ensures outcome.WriteFailed? && link.connects && text != "" && 3 + |Utf8Encode(text)| <= MAX_TEXT_PAYLOAD ==>
      outcome.error == if !link.isWritable then ReadOnly
        else if link.maxSize < sizeOf([TextRecord(text)]) then InsufficientSpace(sizeOf([TextRecord(text)]), link.maxSize)
        else TransferFailed
    ensures outcome.NdefWritten? || outcome.WriteFailed?
  {
    if !link.connects {
      return WriteFailed(ConnectFailed);
    }
    var textRecord := CreateTextRecord(text);
    if textRecord.None? {
      return WriteFailed(RecordCreationFailed);
    }
    var message := [textRecord.value];
    if !link.isWritable {
      return WriteFailed(ReadOnly);
    }
    var size := sizeOf(message);
    var maxSize := link.maxSize;
    if maxSize < size {
      return WriteFailed(InsufficientSpace(size, maxSize));
    }
    if !link.acceptsWrite {
      return WriteFailed(TransferFailed);
    }
    outcome := NdefWritten(size, maxSize);
  }

  /** `writeToFormattableTag`: connect, build the Text record, format the tag with it. */
  method WriteToFormattableTag(link: FormatableLink, text: string) returns (outcome: WriteOutcome)
    ensures outcome == FormatOutcome(link, text)
    ensures outcome == Formatted <==>
      link.connects && text != "" && 3 + |Utf8Encode(text)| <= MAX_TEXT_PAYLOAD && link.acceptsFormat
    ensures outcome != Formatted ==> outcome.WriteFailed?
    ensures outcome.WriteFailed? ==>
      outcome.error == (if !link.connects then ConnectFailed
        else if text == "" || 3 + |Utf8Encode(text)| > MAX_TEXT_PAYLOAD then RecordCreationFailed
        else TransferFailed)
  {
    if !link.connects {
      return WriteFailed(ConnectFailed);
    }
    var textRecord := CreateTextRecord(text);
    if textRecord.None? {
      return WriteFailed(RecordCreationFailed);
    }
    if !link.acceptsFormat {
      return WriteFailed(TransferFailed);
    }
    outcome := Formatted;
  }

  /**
   * `writeNdefMessage`: ISO-DEP when the tag lists it, even next to NDEF;
   * else NDEF; else formatting; else an error.
   */
  method WriteNdefMessage(tag: Tag, params: WriteParameters, sizeOf: seq<Record> -> nat) returns (outcome: WriteOutcome)
    requires IsHexString(params.aid)
    ensures outcome == WriteOutcomeFor(tag, params, sizeOf)
    ensures outcome.WriteFailed? && outcome.error == NoWriteMethod <==> WriteTech(tag.techs).None?
    ensures WriteTech(tag.techs) == Some(IsoDep) ==> outcome == IsoDepSession(tag.isoDep, params.text, params.aid).outcome
    ensures WriteTech(tag.techs) == Some(Ndef) ==> outcome.NdefWritten? || outcome.WriteFailed?
    ensures WriteTech(tag.techs) == Some(NdefFormatable) ==> outcome == Formatted || outcome.WriteFailed?
    ensures outcome.IsoDepWritten? || outcome.IsoDepRead? ==> IsoDep in tag.techs
    ensures outcome.NdefWritten? ==> IsoDep !in tag.techs && Ndef in tag.techs
    ensures outcome.Formatted? ==> IsoDep !in tag.techs && Ndef !in tag.techs && NdefFormatable in tag.techs
  {
    var tech := WriteTech(tag.techs);
    if tech == Some(IsoDep) {
      var s := WriteToIsoDep(tag.isoDep, params.text, params.aid, params.timeout);
      outcome := s.outcome;
      assert outcome != WriteFailed(NoWriteMethod);
    } else if tech == Some(Ndef) {
      outcome := WriteToNdefTag(tag.ndef, params.text, sizeOf);
    } else if tech == Some(NdefFormatable) {
      outcome := WriteToFormattableTag(tag.formatable, params.text);
    } else {
      outcome := WriteFailed(NoWriteMethod);
    }
  }

  /** What `readTag` reports besides the id and technology list. */
  datatype ReadDetails =
    | NdefDetails(maxSize: int, isWritable: bool, records: Option<seq<RecordInfo>>)
    | IsoDepDetails(hiLayerResponse: string, historicalBytes: string, data: Option<seq<byte>>)

  /** The object `readTag` resolves the read call with; `id` is only present for a non-empty identifier. */
  datatype ReadInfo = ReadInfo(id: Option<string>, techTypes: seq<Tech>, details: ReadDetails)

  /** Why `readTag` threw. */
  datatype ReadError = ReadConnectFailed | MessageUnreadable | ReadTransceiveFailed | UnsupportedTag

  /** The fixed READ `readTag` sends to an ISO-DEP tag, as the first command of its session. */
  function IsoDepReadData(link: IsoDepLink): Option<Option<seq<byte>>>
  {
    match link.transceive(0, READ_COMMAND)
    case None => None
    case Some(r) => Some(if |r| > 2 then Some(r[..|r| - 2]) else None)
  }

  /** What the NDEF branch of `readTag` reports. */
  function NdefReport(ndef: NdefLink): Result<ReadDetails, ReadError>
  {
    if !ndef.connects then Failure(ReadConnectFailed)
    else match ndef.message
      case Unreadable => Failure(MessageUnreadable)
      case Blank => Success(NdefDetails(ndef.maxSize, ndef.isWritable, None))
      case Stored(rs) => Success(NdefDetails(ndef.maxSize, ndef.isWritable, Some(DescribeMessage(rs))))
  }

  /** What the ISO-DEP branch of `readTag` reports. */
  function IsoDepReport(isoDep: IsoDepLink): Result<ReadDetails, ReadError>
  {
    if !isoDep.connects then Failure(ReadConnectFailed)
    else if IsoDepReadData(isoDep).None? then Failure(ReadTransceiveFailed)
    else Success(IsoDepDetails(Hex(isoDep.hiLayerResponse), Hex(isoDep.historicalBytes), IsoDepReadData(isoDep).value))
  }

  /** What `readTag` returns or throws for a tag: the id and technologies, with the branch `ReadTech` picks. */
  function ReadReport(tag: Tag): Result<ReadInfo, ReadError>
  {
    var id := if tag.id == [] then None else Some(Hex(tag.id));
    var tech := ReadTech(tag.techs);
    var details := if tech == Some(Ndef) then NdefReport(tag.ndef)
      else if tech == Some(IsoDep) then IsoDepReport(tag.isoDep)
      else Failure(UnsupportedTag);
    match details
    case Failure(e) => Failure(e)
    case Success(d) => Success(ReadInfo(id, tag.techs, d))
  }

  /**
   * A read succeeds exactly when the chosen technology connects and then,
   * for NDEF, the stored message is readable, or, for ISO-DEP, the READ is
   * answered.
   */
  lemma ReadReportSucceeds(tag: Tag)
    ensures ReadReport(tag).Success? <==>
      (ReadTech(tag.techs) == Some(Ndef) && tag.ndef.connects && !tag.ndef.message.Unreadable?)
      || (ReadTech(tag.techs) == Some(IsoDep) && tag.isoDep.connects && tag.isoDep.transceive(0, READ_COMMAND).Some?)
  {
  }

  /** The NDEF branch of `readTag`: connect, then the capacity, writability and stored records. */
  method ReadNdefTag(ndef: NdefLink) returns (result: Result<ReadDetails, ReadError>)
    ensures result == NdefReport(ndef)
    ensures !ndef.connects ==> result == Failure(ReadConnectFailed)
    ensures ndef.connects && ndef.message.Unreadable? ==> result == Failure(MessageUnreadable)
    ensures ndef.connects && !ndef.message.Unreadable? ==>
      result.Success? && result.value.NdefDetails?
      && result.value.maxSize == ndef.maxSize && result.value.isWritable == ndef.isWritable
      && (ndef.message.Blank? <==> result.value.records.None?)
    ensures ndef.connects && ndef.message.Stored? ==>
      var rs := result.value.records.value;
      |rs| == |ndef.message.records|
      && forall i :: 0 <= i < |rs| ==> rs[i] == DescribeRecord(ndef.message.records[i])
  {
    if !ndef.connects {
      return Failure(ReadConnectFailed);
    }
    var records: Option<seq<RecordInfo>> := None;
    match ndef.message {
      case Unreadable =>
        return Failure(MessageUnreadable);
      case Blank =>
      case Stored(rs) =>
        var infos := HandleNdefMessage(rs);
        records := Some(infos);
    }
    return Success(NdefDetails(ndef.maxSize, ndef.isWritable, records));
  }

  /** The ISO-DEP branch of `readTag`: connect, render both byte strings, send one READ. */
  method ReadIsoDepTag(isoDep: IsoDepLink) returns (result: Result<ReadDetails, ReadError>)
    ensures result == IsoDepReport(isoDep)
  {
    if !isoDep.connects {
      return Failure(ReadConnectFailed);
    }
    var hiLayer := BytesToHexString(isoDep.hiLayerResponse);
    var historical := BytesToHexString(isoDep.historicalBytes);
    var response := isoDep.transceive(0, READ_COMMAND);
    if response.None? {
      return Failure(ReadTransceiveFailed);
    }
    var data: Option<seq<byte>> := None;
    var r := response.value;
    if |r| > 2 {
      data := Some(r[..|r| - 2]);
    }
    return Success(IsoDepDetails(hiLayer, historical, data));
  }

  /** `readTag`: NDEF when the tag lists it, else ISO-DEP, else "Unsupported tag type". */
  method ReadTag(tag: Tag) returns (result: Result<ReadInfo, ReadError>)
    ensures result == ReadReport(tag)
    ensures result == Failure(UnsupportedTag) <==> ReadTech(tag.techs).None?
    ensures result.Success? ==> result.value.techTypes == tag.techs
    ensures result.Success? ==> result.value.id == if tag.id == [] then None else Some(Hex(tag.id))
    ensures ReadTech(tag.techs) == Some(Ndef) && !tag.ndef.connects ==> result == Failure(ReadConnectFailed)
    ensures ReadTech(tag.techs) == Some(Ndef) && tag.ndef.connects && tag.ndef.message.Unreadable? ==>
      result == Failure(MessageUnreadable)
    ensures ReadTech(tag.techs) == Some(Ndef) && tag.ndef.connects && !tag.ndef.message.Unreadable? ==>
      result.Success? && result.value.details.NdefDetails?
    ensures result.Success? && result.value.details.NdefDetails? ==>
      var d := result.value.details;
      && ReadTech(tag.techs) == Some(Ndef)
      && d.maxSize == tag.ndef.maxSize && d.isWritable == tag.ndef.isWritable
      && (tag.ndef.message.Blank? <==> d.records.None?)
      && (tag.ndef.message.Stored? ==>
            |d.records.value| == |tag.ndef.message.records|
            && forall i :: 0 <= i < |d.records.value| ==> d.records.value[i] == DescribeRecord(tag.ndef.message.records[i]))
    ensures ReadTech(tag.techs) == Some(IsoDep) && !tag.isoDep.connects ==> result == Failure(ReadConnectFailed)
    ensures ReadTech(tag.techs) == Some(IsoDep) && tag.isoDep.connects ==>
      result == (if IsoDepReadData(tag.isoDep).None? then Failure(ReadTransceiveFailed)
        else Success(ReadInfo(if tag.id == [] then None else Some(Hex(tag.id)), tag.techs,
          IsoDepDetails(Hex(tag.isoDep.hiLayerResponse), Hex(tag.isoDep.historicalBytes), IsoDepReadData(tag.isoDep).value))))
  {
    var id: Option<string> := None;
    if |tag.id| > 0 {
      var hex := BytesToHexString(tag.id);
      id := Some(hex);
    }
    var tech := ReadTech(tag.techs);
    var details: Result<ReadDetails, ReadError>;
    if tech == Some(Ndef) {
      details := ReadNdefTag(tag.ndef);
    } else if tech == Some(IsoDep) {
      details := ReadIsoDepTag(tag.isoDep);
    } else {
      return Failure(UnsupportedTag);
    }
    match details {
      case Failure(e) => result := Failure(e);
      case Success(d) => result := Success(ReadInfo(id, tag.techs, d));
    }
  }
}
