/**
 * What happens when the plugin's reader side writes to a device that runs
 * the plugin's own card emulator: the responder answers the reader's WRITE
 * (`00 D0 00 00 …`) as a READ, since it matches only the `00 D0` prefix, so
 * the write reports success and "verifies" the emulator's shared message
 * rather than the text it sent.
 */
module ReaderMeetsEmulator {
  import opened Bytes
  import opened Wrappers
  import opened HexCodec
  import opened Apdu
  import opened Tags
  import opened TagIo
  import opened Emulator

  /** An ISO-DEP peer that answers every command with `processCommandApdu` on `message`. */
  function EmulatorLink(message: string, hiLayer: seq<byte>, historical: seq<byte>): IsoDepLink
  {
    IsoDepLink(true, hiLayer, historical, (k: nat, cmd: seq<byte>) => Some(Response(message, cmd)))
  }

  /** The emulator accepts every SELECT, whatever the AID. */
  lemma EmulatorAcceptsSelect(message: string, aid: seq<byte>)
    ensures Response(message, CommandWithData(SELECT_HEADER, aid)) == [0x90, 0x00]
  {
    var select := CommandWithData(SELECT_HEADER, aid);
    assert select[..4] == [0x00, 0xA4, 0x04, 0x00];
    ResponseCases(message, select);
  }

  /** The emulator answers the reader's WRITE and READ alike, with its message and `90 00`. */
  lemma EmulatorAnswersWriteAndRead(message: string, data: seq<byte>)
    ensures Response(message, CommandWithData(WRITE_HEADER, data)) == Utf8Encode(message) + [0x90, 0x00]
    ensures Response(message, READ_COMMAND) == Utf8Encode(message) + [0x90, 0x00]
  {
    var write := CommandWithData(WRITE_HEADER, data);
    assert write[..2] == [0x00, 0xD0];
    ResponseCases(message, write);
    ResponseCases(message, READ_COMMAND);
  }

  /**
   * Writing to the plugin's own emulator: the write passes every check and
   * its verified data is the emulator's message, whatever text was sent;
   * with no text, the read returns the message.
   */
  lemma WriteToEmulator(message: string, text: string, aid: string, hiLayer: seq<byte>, historical: seq<byte>)
    requires IsHexString(aid)
    ensures IsoDepSession(EmulatorLink(message, hiLayer, historical), text, aid).outcome ==
      if text != "" then IsoDepWritten(|Utf8Encode(text)|, aid, Utf8Encode(message))
      else IsoDepRead(aid, Utf8Encode(message))
  {
    var link := EmulatorLink(message, hiLayer, historical);
    var select := CommandWithData(SELECT_HEADER, ParseHex(aid));
    var answer := Utf8Encode(message) + [0x90, 0x00];
    EmulatorAcceptsSelect(message, ParseHex(aid));
    EmulatorAnswersWriteAndRead(message, Utf8Encode(text));
    assert link.transceive(0, select) == Some([0x90, 0x00]);
    assert IsSuccessful([0x90, 0x00]);
    assert IsSuccessful(answer) && answer[..|answer| - 2] == Utf8Encode(message);
    if text != "" {
      var write := CommandWithData(WRITE_HEADER, Utf8Encode(text));
      assert link.transceive(1, write) == Some(answer);
      assert link.transceive(2, READ_COMMAND) == Some(answer);
    } else {
      assert link.transceive(1, READ_COMMAND) == Some(answer);
    }
  }
}
