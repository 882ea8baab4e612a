# NFC plugin core, modelled in Dafny

This project models the Android core of a Capacitor NFC plugin. Two classes make up that core.

`NfcPlugin` reads and writes NFC tags in reader mode, or hands a text to the device's own card emulator. It:
- encodes NDEF Text records and decodes their payloads;
- renders and parses hex strings;
- builds the ISO-DEP command APDUs (SELECT by AID, WRITE, READ) and checks the `90 00` status words of the SELECT and WRITE answers;
- picks a tag technology through fixed if/else chains;
- runs a small state machine over `isScanning`, `writeParams` and `savedCallId`.

`NfcHostCardEmulatorService` is the host-card-emulation responder. It holds a shared message and answers each command APDU. It classifies the command by the upper-case hex rendering of its bytes.

## Module layout

- `Wrappers`: `Option` and `Result`.
- `Bytes`:
  - unsigned bytes and the explicit `(byte)` truncation;
  - UTF-8 encoding of Dafny strings;
  - the `System.arraycopy` used to fill arrays.
- `HexCodec`: `bytesToHexString`, `hexStringToByteArray`, and the hex strings both work with.
- `NdefText`: `createTextRecord`, and the text decode and record description of `handleNdefMessage`.
- `Apdu`: `isSuccessful` and the command layouts.
- `Tags`:
  - the technologies;
  - the observations a tag offers, which stand in for the Android tag I/O;
  - the three selection chains.
- `TagIo`: `writeToIsoDep`, `writeToNdefTag`, `writeToFormattableTag`, `writeNdefMessage` and `readTag`.
- `Emulator`: the responder, with `messageToShare` as a field of a class.
- `Plugin`: the `NfcPlugin` class and its state machine.
- `ReaderMeetsEmulator`: the effect of the reader writing to the plugin's own emulator.
- `Scenarios`: call sequences through the plugin and the emulator.

## How I/O is modelled

Every result of tag I/O is an input:
- whether `connect` succeeds;
- `getMaxSize`, `isWritable` and the stored message;
- whether a write or a format throws.

`transceive` is a function from the position of a command in its session and the command bytes to an optional answer. No answer means the call threw. The serialized size of an NDEF message comes from the `android.nfc` library, so it is a parameter `sizeOf`.

## Where the code and the documented behaviour differ

The model follows the code in each case:
- `handleTag` is never called. A tag that arrives while only `startScanning` is active, with no write pending and no read call saved, is not reported at all.
- `stopScanning` rejects when scanning is not active, so a second stop fails. It is not idempotent.
- `read` and `write` do not check `isScanning`.
- `read` does not check for a pending write. If a write is pending, the next tag serves the write and clears the read's call id without answering it (`Scenarios.ReadWhileWritePending`).
- The card emulator has one mode. It answers any command starting `00 D0` with its message. That includes the reader's WRITE `00 D0 00 00`, so a write to the plugin's own emulator succeeds and "verifies" the emulator's message instead of the text sent (`ReaderMeetsEmulator.WriteToEmulator`).
- The status word of the READ answer in `writeToIsoDep` is not checked. An answer shorter than two bytes makes the `String` constructor throw (`ShortReadResponse`).
- The `AID` constant of the emulator service is unused.
- A reader-mode write's call is never settled once dispatch is enabled. `write` keeps only the callback id (NfcPlugin.java:204) and never saves the call. A tag event only notifies listeners of the outcome (229-232) and then drops the id (251). The model captures this: `Write` returns `AwaitingTag`, and `WriteFinished` carries no call.

## Model

| member | source | states |
|---|---|---|
| Bytes.TruncateToByte | android/src/main/java/tools/bink/nfc/NfcPlugin.java:630 | The `(byte)` cast of a length: the same value below 256, and equal to it modulo 256 in general. |
| Bytes.Utf8Encode | android/src/main/java/tools/bink/nfc/NfcPlugin.java:388 | `getBytes(UTF_8)`: the concatenation of the one-to-four-byte UTF-8 forms of the characters, in order. |
| Bytes.EncodeScalar | android/src/main/java/tools/bink/nfc/NfcPlugin.java:388 | The UTF-8 form of one character: one to four bytes, and a single byte equal to the code exactly for codes below `0x80`. |
| Bytes.Utf8EncodeLength | android/src/main/java/tools/bink/nfc/NfcPlugin.java:388 | The UTF-8 form of a text has between one and four bytes per character. It is empty exactly when the text is. |
| Bytes.Utf8EncodeAscii | android/src/main/java/tools/bink/nfc/NfcPlugin.java:388 | An ASCII text encodes to one byte per character, each equal to the character's code. |
| Bytes.Utf8EncodeConcat | android/src/main/java/tools/bink/nfc/NfcPlugin.java:388 | Encoding distributes over concatenation. |
| Bytes.CopyInto | android/src/main/java/tools/bink/nfc/NfcPlugin.java:400-401 | `System.arraycopy`: the target range holds the source bytes, and every other element is unchanged. |
| HexCodec.BytesToHexString | android/src/main/java/tools/bink/nfc/NfcPlugin.java:266-275 | Two lowercase hex digits per byte, and `""` for no bytes. The result is a valid hex string that parses back to the input bytes. |
| HexCodec.HexStringToByteArray | android/src/main/java/tools/bink/nfc/NfcPlugin.java:715-723 | A valid even-length hex string gives `\|s\|/2` bytes. Rendering them gives back the string, up to letter case. |
| HexCodec.HexAt | android/src/main/java/tools/bink/nfc/NfcPlugin.java:266-275 | Byte `k` renders at positions `2k` (high nibble) and `2k+1` (low nibble). |
| HexCodec.Hex | android/src/main/java/tools/bink/nfc/NfcPlugin.java:266-275 | The rendering has exactly two characters per byte. |
| HexCodec.ByteHex | android/src/main/java/tools/bink/nfc/NfcPlugin.java:272 | `String.format("%02x", b)`: the high then the low nibble of the unsigned byte as lowercase digits. |
| HexCodec.ParseHex | android/src/main/java/tools/bink/nfc/NfcPlugin.java:717-721 | The value `hexStringToByteArray` computes: `\|s\|/2` bytes, byte `k` being `16 * digit(s[2k]) + digit(s[2k+1])`. |
| HexCodec.DigitValue | android/src/main/java/tools/bink/nfc/NfcPlugin.java:719-720 | `Character.digit(c, 16)` on an ASCII hex digit of either case, a value in `0..15`. |
| HexCodec.ToUpper | android/src/main/java/tools/bink/nfc/NfcHostCardEmulatorService.java:54 | `toUpperCase` on a hex rendering: each lowercase letter mapped to its upper-case form, the length kept. |
| HexCodec.HexConcat | android/src/main/java/tools/bink/nfc/NfcPlugin.java:269-273 | Rendering distributes over concatenation, as the StringBuilder loop appends one byte at a time. |
| HexCodec.HexSingle | android/src/main/java/tools/bink/nfc/NfcPlugin.java:270-272 | One byte renders as its two `%02x` digits, high nibble first. |
| HexCodec.HexEmpty | android/src/main/java/tools/bink/nfc/NfcPlugin.java:267 | The rendering is empty exactly when there are no bytes. |
| HexCodec.HexIsHexString | android/src/main/java/tools/bink/nfc/NfcPlugin.java:266-275 | Every rendering is an even-length string of lowercase hex digits. |
| HexCodec.ParseHexOfHex | android/src/main/java/tools/bink/nfc/NfcPlugin.java:715-723 | `hexStringToByteArray(bytesToHexString(b)) == b`, for the lowercase and for the upper-case rendering. |
| HexCodec.RenderParseHex | android/src/main/java/tools/bink/nfc/NfcPlugin.java:715-723 | Parsing a valid hex string and rendering it gives the string back, up to letter case. |
| HexCodec.HexPrefix | android/src/main/java/tools/bink/nfc/NfcHostCardEmulatorService.java:28-31 | The upper-case rendering of `p` is a prefix of that of `cmd` exactly when `p` is a prefix of `cmd`. |
| NdefText.CreateTextRecord | android/src/main/java/tools/bink/nfc/NfcPlugin.java:381-411 | No record exactly when the text is empty or `1 + 2 + utf8Len > 255`. Otherwise a well-known `T` record with no id. Its payload is `02 'e' 'n'` followed by the UTF-8 text, of length `3 + utf8Len`. |
| NdefText.TextPayload | android/src/main/java/tools/bink/nfc/NfcPlugin.java:395-401 | The Text payload: the language length byte 2, `en`, then the UTF-8 text. |
| NdefText.TextRecord | android/src/main/java/tools/bink/nfc/NfcPlugin.java:403-406 | The record `createTextRecord` returns: well-known TNF, type `T`, an empty id and the Text payload. |
| NdefText.PayloadText | android/src/main/java/tools/bink/nfc/NfcPlugin.java:429-445 | A non-Text record decodes to its whole payload, and an empty payload to nothing. A Text payload decodes to `\|payload\| - L - 1` bytes when `L = payload[0] & 0x3F` is below the length, and to nothing otherwise. |
| NdefText.PayloadTextIsSuffix | android/src/main/java/tools/bink/nfc/NfcPlugin.java:431-438 | The decoded text is always a suffix of the payload. |
| NdefText.TextPayloadBody | android/src/main/java/tools/bink/nfc/NfcPlugin.java:431-438 | A Text payload whose first byte is `status * 0x40 + \|lang\|`, with any value of the two status bits, a language code shorter than 64 bytes and any body, decodes to exactly that body. |
| NdefText.DecodeTextRecord | android/src/main/java/tools/bink/nfc/NfcPlugin.java:381-445 | Round trip: every record `createTextRecord` builds decodes to exactly the UTF-8 bytes of its text. |
| NdefText.OtherPayloads | android/src/main/java/tools/bink/nfc/NfcPlugin.java:439-445 | Records whose type is not `T` decode to their whole payload, and any empty payload decodes to nothing. |
| NdefText.HandleNdefMessage | android/src/main/java/tools/bink/nfc/NfcPlugin.java:413-470 | One description per record, in order. Each gives the record type and the decoded payload. The `id` field is the lowercase hex of a non-empty identifier, and `""` for an empty one. |
| NdefText.DescribeRecord | android/src/main/java/tools/bink/nfc/NfcPlugin.java:420-449 | The entry for one record: its type, its decoded payload (`PayloadText`) and its identifier in lowercase hex. |
| NdefText.DescribeMessage | android/src/main/java/tools/bink/nfc/NfcPlugin.java:413-470 | One entry per record of the message, in order, each the record's `DescribeRecord`. |
| Apdu.IsSuccessfulTrailer | android/src/main/java/tools/bink/nfc/NfcPlugin.java:706-713 | `isSuccessful(r)` holds exactly when `r` has at least two bytes and ends in `90 00`. Data followed by `90 00` passes, any other final pair fails, and so does anything shorter than two bytes. |
| Apdu.IsSuccessful | android/src/main/java/tools/bink/nfc/NfcPlugin.java:706-713 | A response passes exactly when it has at least two bytes and its last two are `90 00`. |
| Apdu.ParseCommandWithData | android/src/main/java/tools/bink/nfc/NfcPlugin.java:625-656 | A command built from a 4-byte header and data has length `5 + \|data\|` and byte 4 equal to `\|data\|` mod 256. It parses back into its header and data exactly when the data is shorter than 256 bytes. |
| Apdu.BuildParsedCommand | android/src/main/java/tools/bink/nfc/NfcPlugin.java:625-656 | Building a parsed command gives the original bytes back. |
| Apdu.BuildCommand | android/src/main/java/tools/bink/nfc/NfcPlugin.java:625-631 | The array-built command equals `header ++ [(byte) \|data\|] ++ data`. |
| Apdu.CommandWithData | android/src/main/java/tools/bink/nfc/NfcPlugin.java:625-649 | The SELECT and WRITE layout: length `5 + \|data\|`, the four header bytes, Lc as the `(byte)` cast of the data length, then the data. |
| Tags.FirstPresent | android/src/main/java/tools/bink/nfc/NfcPlugin.java:495-506 | No match exactly when no technology of the order is present. Otherwise it returns the earliest technology of the order the tag lists. |
| Tags.ReportHandler | android/src/main/java/tools/bink/nfc/NfcPlugin.java:495-506 | `handleTag`'s if/else chain over Ndef, NdefFormatable, MifareClassic, MifareUltralight, IsoDep. A chosen technology is one the tag lists. |
| Tags.WriteTech | android/src/main/java/tools/bink/nfc/NfcPlugin.java:280-297 | `writeNdefMessage`'s chain over IsoDep, Ndef, NdefFormatable. A chosen technology is one the tag lists. |
| Tags.ReadTech | android/src/main/java/tools/bink/nfc/NfcPlugin.java:781-828 | `readTag`'s chain over Ndef, IsoDep. A chosen technology is one the tag lists. |
| Tags.ReportIsFirstMatch | android/src/main/java/tools/bink/nfc/NfcPlugin.java:495-506 | `handleTag`'s chain is the first match in the order Ndef > NdefFormatable > MifareClassic > MifareUltralight > IsoDep, and picks nothing when none is present. |
| Tags.WriteIsFirstMatch | android/src/main/java/tools/bink/nfc/NfcPlugin.java:280-297 | `writeNdefMessage`'s chain is the first match in the order IsoDep > Ndef > NdefFormatable, and picks nothing when none is present. |
| Tags.ReadIsFirstMatch | android/src/main/java/tools/bink/nfc/NfcPlugin.java:781-828 | `readTag`'s chain is the first match in the order Ndef > IsoDep, and picks nothing when none is present. |
| Tags.WriteOverridesNdef | android/src/main/java/tools/bink/nfc/NfcPlugin.java:280-289 | A tag listing IsoDep is written over ISO-DEP even when it also lists Ndef, while `readTag` reads it as NDEF. |
| Tags.OtherTechsIgnored | android/src/main/java/tools/bink/nfc/NfcPlugin.java:495-506 | Adding a technology no chain mentions (NfcA, NfcB, NfcF, NfcV, NfcBarcode) changes no selection. |
| TagIo.IsoDepCommands | android/src/main/java/tools/bink/nfc/NfcPlugin.java:625-694 | The session sends at most three commands. First `00 A4 04 00 Lc AID` of length `5 + \|AID\|`. Then, with text, `00 D0 00 00 Lc text` of length `5 + \|text\|`, then `00 D0 01 00`. Without text, only `00 D0 01 00`. |
| TagIo.IsoDepWriteNeedsSuccess | android/src/main/java/tools/bink/nfc/NfcPlugin.java:635-694 | A successful write sent three commands, with its SELECT and its WRITE both answered `90 00`. The verified data is the READ answer minus two bytes. A SELECT not answered `90 00` ends the session with "Failed to select application". |
| TagIo.IsoDepSession | android/src/main/java/tools/bink/nfc/NfcPlugin.java:617-695 | The ISO-DEP protocol: connect, SELECT by AID, then with text WRITE and READ, without text READ only. Each throw or non-`90 00` SELECT/WRITE answer ends it with its error. The READ answer's data is the answer minus two bytes, and fewer than two bytes is an error. |
| TagIo.ReadData | android/src/main/java/tools/bink/nfc/NfcPlugin.java:667 | `new String(r, 0, r.length - 2)` on a READ answer: the answer without its last two bytes, and an error for an answer shorter than two bytes. The same code is at line 687. |
| TagIo.WriteToIsoDep | android/src/main/java/tools/bink/nfc/NfcPlugin.java:611-704 | The commands sent and the outcome are those of the SELECT / WRITE / READ protocol (`IsoDepSession`), for every behaviour of the tag. |
| TagIo.WriteToNdefTag | android/src/main/java/tools/bink/nfc/NfcPlugin.java:308-349 | The outcome is `NdefWriteOutcome`. The checks in order: connect, record creation, read-only, then capacity `maxSize < size`. It writes exactly when all pass and the tag accepts the message, and reports the size and capacity. Each failure gives its own error. |
| TagIo.NdefWriteOutcome | android/src/main/java/tools/bink/nfc/NfcPlugin.java:308-349 | The outcome of an NDEF write, with the checks in source order: connect, record creation, read-only, capacity, transfer. |
| TagIo.WriteToFormattableTag | android/src/main/java/tools/bink/nfc/NfcPlugin.java:351-379 | The outcome is `FormatOutcome`. It formats exactly when connect and record creation succeed and the tag accepts the format. Otherwise the error names the first check that failed. |
| TagIo.FormatOutcome | android/src/main/java/tools/bink/nfc/NfcPlugin.java:351-379 | The outcome of formatting: connect, record creation, format. |
| TagIo.WriteNdefMessage | android/src/main/java/tools/bink/nfc/NfcPlugin.java:277-306 | The outcome is `WriteOutcomeFor` the tag. "Tag doesn't support any known write methods" exactly when no write technology is present. IsoDep runs the ISO-DEP protocol even next to Ndef. An Ndef or formatted success implies IsoDep was absent. |
| TagIo.WriteOutcomeFor | android/src/main/java/tools/bink/nfc/NfcPlugin.java:277-306 | The outcome of a stored write on a tag: the writer that `WriteTech` picks, or "Tag doesn't support any known write methods". |
| TagIo.ReadTag | android/src/main/java/tools/bink/nfc/NfcPlugin.java:762-829 | The result is `ReadReport` of the tag. "Unsupported tag type" exactly when neither Ndef nor IsoDep is listed. The id is present only for a non-empty identifier and is its hex. The techTypes are the tag's. Ndef cases: connect failure, unreadable message, details with the records of a stored message. The ISO-DEP case gives the hex of both byte strings, and data only for a READ answer longer than two bytes. |
| TagIo.ReadNdefTag | android/src/main/java/tools/bink/nfc/NfcPlugin.java:781-797 | The outcome is `NdefReport`. Connect failure and an unreadable message are errors. Otherwise the details carry the tag's capacity and writability, no records for a blank tag, and one description per stored record, in order. |
| TagIo.ReadIsoDepTag | android/src/main/java/tools/bink/nfc/NfcPlugin.java:800-825 | The outcome is `IsoDepReport`. Connect and transceive failures are errors. Otherwise the details carry the hex of the higher-layer response and of the historical bytes, and the READ data. |
| TagIo.NdefReport | android/src/main/java/tools/bink/nfc/NfcPlugin.java:781-797 | What the NDEF branch reports: connect failure, unreadable message, or capacity, writability and the described records (none for a blank tag). |
| TagIo.IsoDepReport | android/src/main/java/tools/bink/nfc/NfcPlugin.java:800-825 | What the ISO-DEP branch reports: connect or transceive failure, or the hex of both byte strings and the READ data. |
| TagIo.IsoDepReadData | android/src/main/java/tools/bink/nfc/NfcPlugin.java:809-820 | `readTag`'s READ as the first command of the session: a throw, or the answer without its last two bytes when it is longer than two bytes, else no data. |
| TagIo.ReadReport | android/src/main/java/tools/bink/nfc/NfcPlugin.java:762-829 | What `readTag` returns or throws: the branch `ReadTech` picks, with the id (hex, only when non-empty) and the technology list. |
| TagIo.ReadReportSucceeds | android/src/main/java/tools/bink/nfc/NfcPlugin.java:762-829 | A read succeeds exactly when the chosen technology connects and then the NDEF message is readable, or the ISO-DEP READ is answered. |
| Emulator.PrefixMatch | android/src/main/java/tools/bink/nfc/NfcHostCardEmulatorService.java:28-31 | The hex starts `00A40400` exactly when the first four bytes are `00 A4 04 00`. It starts `00D0` exactly when the first two are `00 D0`. |
| Emulator.PrefixesRendered | android/src/main/java/tools/bink/nfc/NfcHostCardEmulatorService.java:11 | The two string prefixes are the renderings of the byte prefixes. |
| Emulator.BytesToHex | android/src/main/java/tools/bink/nfc/NfcHostCardEmulatorService.java:49-55 | Exactly two upper-case hex characters per byte, in order. |
| Emulator.ResponseCases | android/src/main/java/tools/bink/nfc/NfcHostCardEmulatorService.java:24-42 | SELECT gets exactly `90 00`. A command starting `00 D0` gets the message bytes followed by `90 00`, of length `\|message\| + 2`, which is `90 00` for the initial empty message. Anything else, the empty command included, gets `6F 00`. |
| Emulator.ResponseTrailer | android/src/main/java/tools/bink/nfc/NfcHostCardEmulatorService.java:24-42 | Every response either ends in `90 00` or is exactly `6F 00`. |
| Emulator.PingExample | android/src/main/java/tools/bink/nfc/NfcHostCardEmulatorService.java:31-38 | With the message "ping", a READ is answered `70 69 6E 67 90 00`. |
| Emulator.Response | android/src/main/java/tools/bink/nfc/NfcHostCardEmulatorService.java:28-41 | The answer to a command's bytes: `90 00` to a `00 A4 04 00` prefix, else the message's UTF-8 bytes and `90 00` to a `00 D0` prefix, else `6F 00`. |
| Emulator.HostCardEmulatorService.constructor | android/src/main/java/tools/bink/nfc/NfcHostCardEmulatorService.java:17 | The shared message starts out empty. |
| Emulator.HostCardEmulatorService.SetMessageToShare | android/src/main/java/tools/bink/nfc/NfcHostCardEmulatorService.java:19-21 | It replaces the message and changes nothing else. |
| Emulator.HostCardEmulatorService.ProcessCommandApdu | android/src/main/java/tools/bink/nfc/NfcHostCardEmulatorService.java:24-42 | The answer is the responder's answer to the command's bytes for the current message: `90 00`, `6F 00`, or the message followed by `90 00` for a `00 D0` command. |
| ReaderMeetsEmulator.EmulatorAcceptsSelect | android/src/main/java/tools/bink/nfc/NfcHostCardEmulatorService.java:28-30 | The emulator answers `90 00` to a SELECT of any AID. |
| ReaderMeetsEmulator.EmulatorAnswersWriteAndRead | android/src/main/java/tools/bink/nfc/NfcHostCardEmulatorService.java:31-38 | The emulator answers the reader's WRITE and READ alike, with its message followed by `90 00`. |
| ReaderMeetsEmulator.WriteToEmulator | android/src/main/java/tools/bink/nfc/NfcPlugin.java:611-704 | A reader write to the plugin's own emulator succeeds with the text's byte count, but its verified data is the emulator's message. A write with no text reads the message. |
| Plugin.DefaultAidIsHex | android/src/main/java/tools/bink/nfc/NfcPlugin.java:199 | The default AID `F0010203040506` is a valid hex string. |
| Plugin.ParamsOf | android/src/main/java/tools/bink/nfc/NfcPlugin.java:198-203 | The stored parameters: the call's text, with defaults `auto`, `F0010203040506`, `false` and `5000` for a missing card type, AID, secure flag and timeout. |
| Plugin.IsEmulatorMode | android/src/main/java/tools/bink/nfc/NfcPlugin.java:187-189 | Emulator mode exactly when the `mode` option is `emulator`. A missing mode means `reader`. |
| Plugin.RejectionMessage | android/src/main/java/tools/bink/nfc/NfcPlugin.java:112-214 | The exact `call.reject` strings of `startScanning`, `stopScanning` and `write`, and of `read` at lines 733-758. |
| Plugin.ReadEvent | android/src/main/java/tools/bink/nfc/NfcPlugin.java:236-248 | The saved read call is resolved with what `readTag` returned, or rejected with what it threw. |
| Plugin.NfcPlugin.constructor | android/src/main/java/tools/bink/nfc/NfcPlugin.java:44-48 | Not scanning, no write pending, no call saved. |
| Plugin.NfcPlugin.StartScanning | android/src/main/java/tools/bink/nfc/NfcPlugin.java:104-150 | The checks in order: permission, adapter, enabled, activity, already scanning, dispatch. Scanning is on afterwards exactly when it was on or the call resolved. Nothing else changes. |
| Plugin.NfcPlugin.StopScanning | android/src/main/java/tools/bink/nfc/NfcPlugin.java:152-177 | It rejects with "NFC scanning is not active" when not scanning, so it is not idempotent. On success scanning is off. Nothing else changes. |
| Plugin.NfcPlugin.Write | android/src/main/java/tools/bink/nfc/NfcPlugin.java:179-217 | Emulator mode sets the emulator's message and resolves. Reader mode replaces the stored parameters (with defaults `auto`, the default AID, `false`, `5000`) and the saved call id, so the last write wins, even if enabling dispatch then fails. Scanning is untouched. |
| Plugin.NfcPlugin.Read | android/src/main/java/tools/bink/nfc/NfcPlugin.java:725-760 | It saves the call id once permission, adapter and enabled pass, without looking at scanning or a pending write. The pending write and scanning are untouched. |
| Plugin.NfcPlugin.HandleOnNewIntent | android/src/main/java/tools/bink/nfc/NfcPlugin.java:219-254 | A discovered tag serves the pending write first, with the outcome `WriteOutcomeFor` the tag and the stored parameters. Otherwise it serves the saved read call, answered per `ReadReport` of the tag. Otherwise no one. Afterwards no write is pending and no call is saved. A read only answers a call saved by `read`. Other intents change nothing. |
| Plugin.NfcPlugin.HandleOnDestroy | android/src/main/java/tools/bink/nfc/NfcPlugin.java:256-264 | It releases the saved call id and clears it. The pending write and scanning stay. |
| Scenarios.ReadWhileWritePending | android/src/main/java/tools/bink/nfc/NfcPlugin.java:198-254 | A read issued while a write is pending is accepted. The tag then serves the write and the read's call id is dropped unanswered. |
| Scenarios.LastWriteWins | android/src/main/java/tools/bink/nfc/NfcPlugin.java:203-204 | Of two writes before a tag, an ISO-DEP tag receives the second's text at the second's AID. |
| Scenarios.StopTwice | android/src/main/java/tools/bink/nfc/NfcPlugin.java:166-172 | After start and stop, a second stop is rejected with "NFC scanning is not active". |
| Scenarios.StartTwice | android/src/main/java/tools/bink/nfc/NfcPlugin.java:128-131 | A second start is rejected with "NFC scanning is already in progress". |
| Scenarios.ShareThenRead | android/src/main/java/tools/bink/nfc/NfcPlugin.java:189-195 | An emulator-mode write makes the next READ return the text's bytes followed by `90 00`. |
| Scenarios.TextLengthBoundary | android/src/main/java/tools/bink/nfc/NfcPlugin.java:391-393 | A 252-character ASCII text gives a 255-byte payload. A 253-character one gives no record. |

## Left out

- Android and Capacitor plumbing is out:
  - foreground dispatch, intent filters and pending intents;
  - permission requests, which become the `PermissionRequested` outcome;
  - `notifyListeners` and `JSObject` building, which become the event and result datatypes;
  - `load` and `isEnabled`.
- `bridge.saveCall`, `getSavedCall` and `releaseCall`: the saved call is always found. The case where the bridge has lost the call is not modelled.
- The per-technology handlers of `handleTag` are out: `handleNdefTag`, `handleFormattableTag`, `handleMifareClassic`, `handleMifareUltralight` and `handleIsoDep`. They are tag I/O, and `handleTag` is unreachable. Only its selection chain is modelled (`Tags.ReportHandler`).
- Tag I/O (`connect`, `transceive`, `getNdefMessage`, `writeNdefMessage`, `format`) becomes observations given as inputs. `close` and `setTimeout` are left out, and the model assumes `close` never throws. The writers catch the exceptions of `close` (NfcPlugin.java:343-347, 373-377, 698-702), so there it cannot change a result. `readTag` calls `ndef.close()` and `isoDep.close()` in unguarded `finally` blocks (NfcPlugin.java:793-795, 821-823). There a throwing `close` would turn a finished read into the "Error reading tag" rejection, which `TagIo.ReadTag` and `Plugin.NfcPlugin.HandleOnNewIntent` do not model.
- The NDEF serialized size `getByteArrayLength` belongs to the platform library, so it is the parameter `sizeOf`. NDEF message framing is not modelled.
- Record types, decoded payloads and READ data stay UTF-8 bytes. Their conversion into Java strings, with replacement of malformed sequences, is not modelled.
- Java `null` texts and missing record payloads are not modelled. A missing `text` is the empty string. That matches reader mode, where `createTextRecord` and `writeToIsoDep` treat `null` like an empty text. It does not match emulator mode: there `setMessageToShare(null)` makes the emulator's next `00 D0` command throw a `NullPointerException` at NfcHostCardEmulatorService.java:33, where the model answers `90 00`.
- `getBytes()` with the default charset is taken as UTF-8. Dafny strings hold Unicode scalar values, so lone UTF-16 surrogates are not modelled.
- HexCodec.HexStringToByteArray: requires a valid, even-length hex string. `Character.digit` returning -1 for a bad digit is not modelled.
- Plugin.NfcPlugin.Write: requires a valid hex AID in reader mode, the AID that `writeToIsoDep` later parses.
- `cardType`, `secure` and `timeout` are stored but affect no modelled result. The unused `AID` constant of the emulator service is not modelled.
- The static `messageToShare` is written from the plugin thread and read from the emulation callback thread. It is modelled sequentially, with no concurrency.
- `onDeactivated` is only logging and is not modelled.
- The second plugin class under `com/myapp`, the iOS code, the TypeScript definitions and the example app are not part of this model.
