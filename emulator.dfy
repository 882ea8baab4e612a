/**
 * The card-emulation side, `NfcHostCardEmulatorService`: a process-wide
 * message to share and the responder that answers each command APDU a
 * reader sends, classifying it by the upper-case hex rendering of its bytes.
 */
module Emulator {
  import opened Bytes
  import opened HexCodec
  import Apdu

  /** `SELECT_APDU_HEADER`. */
  const SELECT_APDU_HEADER: string := "00A40400"
  /** The prefix the READ branch tests. */
  const READ_PREFIX: string := "00D0"
  /** `SELECT_OK`, the status word `90 00`. */
  const SELECT_OK: seq<byte> := [0x90, 0x00]
  /** `UNKNOWN_CMD`, the status word `6F 00`. */
  const UNKNOWN_CMD: seq<byte> := [0x6F, 0x00]

  /**
   * The answer to a command in terms of its bytes: `90 00` to anything that
   * starts `00 A4 04 00`, the shared message's bytes and `90 00` to anything
   * else that starts `00 D0`, and `6F 00` to everything else.
   */
  function Response(message: string, command: seq<byte>): seq<byte>
  {
    if [0x00, 0xA4, 0x04, 0x00] <= command then SELECT_OK
    else if [0x00, 0xD0] <= command then Utf8Encode(message) + SELECT_OK
    else UNKNOWN_CMD
  }

  /** The two string prefixes are the renderings of the byte prefixes `00 A4 04 00` and `00 D0`. */
  lemma PrefixesRendered()
    ensures ToUpper(Hex([0x00, 0xA4, 0x04, 0x00])) == SELECT_APDU_HEADER
    ensures ToUpper(Hex([0x00, 0xD0])) == READ_PREFIX
  {
    assert Hex([0x00, 0xA4, 0x04, 0x00]) == "00a40400" by {
      assert Hex([0x04, 0x00]) == "0400";
    }
  }

  /** Matching the string prefixes is matching the byte prefixes. */
  lemma PrefixMatch(command: seq<byte>)
    ensures SELECT_APDU_HEADER <= ToUpper(Hex(command)) <==> |command| >= 4 && command[..4] == [0x00, 0xA4, 0x04, 0x00]
    ensures READ_PREFIX <= ToUpper(Hex(command)) <==> |command| >= 2 && command[..2] == [0x00, 0xD0]
  {
    PrefixesRendered();
    HexPrefix([0x00, 0xA4, 0x04, 0x00], command);
    HexPrefix([0x00, 0xD0], command);
  }

  /** `bytesToHex`: two digits per byte, upper case (`%02x` then `toUpperCase`). */
  method BytesToHex(bytes: seq<byte>) returns (s: string)
    ensures s == ToUpper(Hex(bytes))
    ensures |s| == 2 * |bytes|
    ensures forall i :: 0 <= i < |s| ==> '0' <= s[i] <= '9' || 'A' <= s[i] <= 'F'
  {
    var sb := "";
    var i := 0;
    while i < |bytes|
      invariant 0 <= i <= |bytes|
      invariant sb == Hex(bytes[..i])
    {
      assert bytes[..i + 1] == bytes[..i] + [bytes[i]];
      HexConcat(bytes[..i], [bytes[i]]);
      HexSingle(bytes[i]);
      sb := sb + ByteHex(bytes[i]);
      i := i + 1;
    }
    assert bytes[..i] == bytes;
    HexIsHexString(bytes);
    s := ToUpper(sb);
  }

  /** Every answer is either some data followed by `90 00` or exactly `6F 00`. */
  lemma ResponseTrailer(message: string, command: seq<byte>)
    ensures var r := Response(message, command);
      (Apdu.IsSuccessful(r) && r[|r| - 2..] == SELECT_OK) || r == UNKNOWN_CMD
  {
  }

  /**
   * The three answers: SELECT gets exactly `90 00`; a command starting
   * `00 D0` (the reader's WRITE `00 D0 00 00` as well as its READ
   * `00 D0 01 00`) gets the message bytes and `90 00`; anything else,
   * including the empty command, gets exactly `6F 00`.
   */
  lemma ResponseCases(message: string, command: seq<byte>)
    ensures |command| >= 4 && command[..4] == [0x00, 0xA4, 0x04, 0x00] ==> Response(message, command) == [0x90, 0x00]
    ensures |command| >= 2 && command[..2] == [0x00, 0xD0] ==>
      Response(message, command) == Utf8Encode(message) + [0x90, 0x00]
      && |Response(message, command)| == |Utf8Encode(message)| + 2
    ensures !(|command| >= 4 && command[..4] == [0x00, 0xA4, 0x04, 0x00]) && !(|command| >= 2 && command[..2] == [0x00, 0xD0]) ==>
      Response(message, command) == [0x6F, 0x00]
    ensures Response(message, []) == [0x6F, 0x00]
    ensures Response("", [0x00, 0xD0, 0x01, 0x00]) == [0x90, 0x00]
  {
    if |command| >= 2 && command[..2] == [0x00, 0xD0] {
      assert command[1] == 0xD0;
      assert !([0x00, 0xA4, 0x04, 0x00] <= command);
      assert [0x00, 0xD0] <= command;
    }
    var read: seq<byte> := [0x00, 0xD0, 0x01, 0x00];
    assert read[1] == 0xD0 && read[..2] == [0x00, 0xD0];
  }

  /** A reader READ against the message "ping" is answered `70 69 6E 67 90 00`. */
  lemma PingExample()
    ensures Response("ping", [0x00, 0xD0, 0x00, 0x00]) == [0x70, 0x69, 0x6E, 0x67, 0x90, 0x00]
  {
    assert Utf8Encode("ping") == [0x70, 0x69, 0x6E, 0x67] by {
      assert Utf8Encode("g") == [0x67];
      assert Utf8Encode("ng") == [0x6E, 0x67];
      assert Utf8Encode("ing") == [0x69, 0x6E, 0x67];
    }
    var read: seq<byte> := [0x00, 0xD0, 0x00, 0x00];
    assert read[1] == 0xD0 && read[..2] == [0x00, 0xD0];
  }

  /** `NfcHostCardEmulatorService`, with its static `messageToShare` as the one field of the one instance. */
  class HostCardEmulatorService {
    var messageToShare: string

    /** The message starts out empty. */
    constructor ()
      ensures messageToShare == ""
    {
      messageToShare := "";
    }

    /** `setMessageToShare`: replaces the message, and nothing else. */
    method SetMessageToShare(message: string)
      modifies this
      ensures messageToShare == message
    {
      messageToShare := message;
    }

    /** `processCommandApdu`: classify by the hex rendering, answer from the current message. */
    method ProcessCommandApdu(commandApdu: seq<byte>) returns (response: seq<byte>)
      ensures response == Response(messageToShare, commandApdu)
      ensures response == SELECT_OK || response == UNKNOWN_CMD ||
        (response == Utf8Encode(messageToShare) + SELECT_OK && |commandApdu| >= 2 && commandApdu[..2] == [0x00, 0xD0])
    {
      var hexCommandApdu := BytesToHex(commandApdu);
      PrefixMatch(commandApdu);
      if SELECT_APDU_HEADER <= hexCommandApdu {
        return SELECT_OK;
      } else if READ_PREFIX <= hexCommandApdu {
        var messageBytes := Utf8Encode(messageToShare);
        var a := new byte[|messageBytes| + 2];
        CopyInto(messageBytes, a, 0);
        a[|messageBytes|] := 0x90;
        a[|messageBytes| + 1] := 0x00;
        response := a[..];
        assert response == messageBytes + SELECT_OK;
        return;
      }
      return UNKNOWN_CMD;
    }
  }
}
