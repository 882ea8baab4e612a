/**
 * Call sequences through the plugin and the emulator, showing how the
 * state machine behaves across several calls.
 */
module Scenarios {
  import opened Bytes
  import opened Wrappers
  import opened HexCodec
  import opened NdefText
  import opened Tags
  import opened TagIo
  import opened Emulator
  import opened Plugin

  /** A host on which every Android precondition holds. */
  const ReadyHost := Host(true, true, true, true, true)

  /**
   * `read` while a reader-mode write is pending is accepted, the next tag
   * serves the write, and the read's call id is cleared without the call
   * being answered.
   */
  method ReadWhileWritePending(write: WriteCall, readId: CallId, tag: Tag, sizeOf: seq<Record> -> nat)
    returns (readOutcome: CallOutcome, event: TagEvent, savedAfter: Option<CallId>)
    requires !IsEmulatorMode(write) && IsHexString(ParamsOf(write).aid)
    ensures readOutcome == AwaitingTag
    ensures event.WriteFinished?
    ensures savedAfter == None
  {
    var emulator := new HostCardEmulatorService();
    var plugin := new NfcPlugin(emulator);
    var _ := plugin.Write(write, ReadyHost);
    readOutcome := plugin.Read(readId, ReadyHost);
    event := plugin.HandleOnNewIntent(TagDiscovered, Some(tag), sizeOf);
    savedAfter := plugin.savedCallId;
  }

  /** Of two writes before a tag, the tag serves the second. */
  method LastWriteWins(first: WriteCall, second: WriteCall, tag: Tag, sizeOf: seq<Record> -> nat)
    returns (event: TagEvent)
    requires !IsEmulatorMode(first) && IsHexString(ParamsOf(first).aid)
    requires !IsEmulatorMode(second) && IsHexString(ParamsOf(second).aid)
    requires IsoDep in tag.techs
    ensures event == WriteFinished(IsoDepSession(tag.isoDep, second.text, ParamsOf(second).aid).outcome)
  {
    var emulator := new HostCardEmulatorService();
    var plugin := new NfcPlugin(emulator);
    var _ := plugin.Write(first, ReadyHost);
    var _ := plugin.Write(second, ReadyHost);
    event := plugin.HandleOnNewIntent(TagDiscovered, Some(tag), sizeOf);
  }

  /** A second `stopScanning` after a successful one is rejected: stopping is not idempotent. */
  method StopTwice() returns (first: CallOutcome, second: CallOutcome, scanning: bool)
    ensures first == Resolved && second == Rejected(ScanNotActive) && !scanning
    ensures RejectionMessage(second.reason) == "NFC scanning is not active"
  {
    var emulator := new HostCardEmulatorService();
    var plugin := new NfcPlugin(emulator);
    var _ := plugin.StartScanning(ReadyHost);
    first := plugin.StopScanning(ReadyHost);
    second := plugin.StopScanning(ReadyHost);
    scanning := plugin.isScanning;
  }

  /** A second `startScanning` is rejected while the first is active. */
  method StartTwice() returns (first: CallOutcome, second: CallOutcome)
    ensures first == Resolved && second == Rejected(ScanAlreadyActive)
    ensures RejectionMessage(second.reason) == "NFC scanning is already in progress"
  {
    var emulator := new HostCardEmulatorService();
    var plugin := new NfcPlugin(emulator);
    first := plugin.StartScanning(ReadyHost);
    second := plugin.StartScanning(ReadyHost);
  }

  /** An emulator-mode `write` sets the message the next READ command is answered with. */
  method ShareThenRead(text: string) returns (outcome: CallOutcome, response: seq<byte>)
    ensures outcome == Resolved
    ensures response == Utf8Encode(text) + [0x90, 0x00]
  {
    var emulator := new HostCardEmulatorService();
    var plugin := new NfcPlugin(emulator);
    outcome := plugin.Write(WriteCall("call", text, Some("emulator"), None, None, None, None), ReadyHost);
    response := emulator.ProcessCommandApdu([0x00, 0xD0, 0x01, 0x00]);
    ResponseCases(text, [0x00, 0xD0, 0x01, 0x00]);
  }

  /** The payload limit at its boundary: 252 bytes of text fit, 253 do not. */
  method TextLengthBoundary() returns (fits: Option<Record>, tooLong: Option<Record>)
    ensures fits.Some? && |fits.value.payload| == 255
    ensures tooLong.None?
  {
    var t252 := seq(252, i => 'a');
    var t253 := seq(253, i => 'a');
    Utf8EncodeAscii(t252);
    Utf8EncodeAscii(t253);
    fits := CreateTextRecord(t252);
    tooLong := CreateTextRecord(t253);
  }
}
