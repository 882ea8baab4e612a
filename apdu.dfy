/**
 * The ISO/IEC 7816-4 command and response shapes the reader side uses:
 * the `90 00` status trailer check `isSuccessful`, the SELECT-by-name and
 * WRITE commands (header, one-byte Lc, data) and the READ command of
 * `writeToIsoDep` and `readTag`.
 */
module Apdu {
  import opened Bytes
  import opened Wrappers

  /** Status word `90 00`: command completed normally. */
  const SW_SUCCESS: seq<byte> := [0x90, 0x00]
  /** CLA INS P1 P2 of SELECT by DF name: `00 A4 04 00`. */
  const SELECT_HEADER: seq<byte> := [0x00, 0xA4, 0x04, 0x00]
  /** CLA INS P1 P2 of the plugin's WRITE: `00 D0 00 00`. */
  const WRITE_HEADER: seq<byte> := [0x00, 0xD0, 0x00, 0x00]
  /** The plugin's READ command, `00 D0 01 00`, sent without Lc or Le. */
  const READ_COMMAND: seq<byte> := [0x00, 0xD0, 0x01, 0x00]

  /** `isSuccessful`: the response ends in the `90 00` trailer. */
  predicate IsSuccessful(response: seq<byte>)
    ensures IsSuccessful(response) <==> |response| >= 2 && response[|response| - 2..] == SW_SUCCESS
  {
    |response| >= 2 && response[|response| - 2] == 0x90 && response[|response| - 1] == 0x00
  }

  /** A response passes exactly when it is some data followed by `90 00`; a shorter one never does. */
  lemma IsSuccessfulTrailer(data: seq<byte>, sw1: byte, sw2: byte, short: seq<byte>)
    requires |short| < 2
    ensures IsSuccessful(data + [sw1, sw2]) <==> [sw1, sw2] == SW_SUCCESS
    ensures !IsSuccessful(short)
  {
  }

  /** A command with a data field: the four header bytes, Lc as Java's `(byte)` cast of the length, the data. */
  function CommandWithData(header: seq<byte>, data: seq<byte>): (cmd: seq<byte>)
    requires |header| == 4
    ensures |cmd| == 5 + |data|
    ensures cmd[..4] == header && cmd[4] == TruncateToByte(|data|) && cmd[5..] == data
  {
    header + [TruncateToByte(|data|)] + data
  }

  /** The fields of a well-formed short command with a data field. */
  datatype Command = Command(header: seq<byte>, data: seq<byte>)

  /** Reads a command as header, Lc and exactly Lc data bytes; `None` when Lc disagrees with the length. */
  function ParseCommand(cmd: seq<byte>): (c: Option<Command>)
    ensures c.Some? ==> |c.value.header| == 4 && |c.value.data| < 256
  {
    if |cmd| >= 5 && cmd[4] == |cmd| - 5 then Some(Command(cmd[..4], cmd[5..])) else None
  }

  /**
   * Parsing inverts building exactly when the data fits the one-byte Lc:
   * past 255 bytes the truncated Lc no longer describes the data.
   */
  lemma ParseCommandWithData(header: seq<byte>, data: seq<byte>)
    requires |header| == 4
    ensures |CommandWithData(header, data)| == 5 + |data|
    ensures ParseCommand(CommandWithData(header, data)) ==
      if |data| < 256 then Some(Command(header, data)) else None
  {
    var cmd := CommandWithData(header, data);
    assert cmd[..4] == header && cmd[5..] == data;
    if |data| >= 256 {
      assert cmd[4] == |data| % 256 < 256 <= |cmd| - 5;
    }
  }

  /** And building inverts parsing: a command that parses is rebuilt from its fields. */
  lemma BuildParsedCommand(cmd: seq<byte>)
    requires ParseCommand(cmd).Some?
    ensures CommandWithData(ParseCommand(cmd).value.header, ParseCommand(cmd).value.data) == cmd
  {
    var c := ParseCommand(cmd).value;
    assert cmd == cmd[..4] + [cmd[4]] + cmd[5..];
  }

  /** How `writeToIsoDep` fills `selectAID` and `writeCommand`: header bytes, Lc, then the data copied in. */
  method BuildCommand(header: seq<byte>, data: seq<byte>) returns (cmd: seq<byte>)
    requires |header| == 4
    ensures cmd == CommandWithData(header, data)
    ensures |cmd| == 5 + |data| && cmd[..4] == header && cmd[5..] == data
    ensures |data| < 256 ==> ParseCommand(cmd) == Some(Command(header, data))
  {
    var a := new byte[5 + |data|];
    a[0], a[1], a[2], a[3] := header[0], header[1], header[2], header[3];
    a[4] := TruncateToByte(|data|);
    CopyInto(data, a, 5);
    cmd := a[..];
    assert cmd == header + [TruncateToByte(|data|)] + data;
    ParseCommandWithData(header, data);
  }
}
