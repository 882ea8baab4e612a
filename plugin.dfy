/**
 * The plugin object `NfcPlugin` as a state machine over its three fields:
 * `isScanning` (foreground dispatch enabled by `startScanning`),
 * `writeParams` (a reader-mode write waiting for a tag) and `savedCallId`
 * (the call a tag event answers). Each plugin method is an entry point;
 * what the Android host provides (permission, adapter, activity, whether
 * enabling or disabling foreground dispatch succeeds) is an input.
 */
module Plugin {
  import opened Wrappers
  import opened HexCodec
  import opened NdefText
  import opened Tags
  import opened TagIo
  import opened Emulator

  /** What the Android host provides at the moment of a call. */
  datatype Host = Host(
    permissionGranted: bool,
    adapterPresent: bool,
    adapterEnabled: bool,
    activityPresent: bool,
    dispatchSucceeds: bool)

  /** A plugin call's callback identifier. */
  type CallId = string

  /** The options of a `write` call; a missing option is `None`. */
  datatype WriteCall = WriteCall(
    callbackId: CallId,
    text: string,
    mode: Option<string>,
    cardType: Option<string>,
    aid: Option<string>,
    secure: Option<bool>,
    timeout: Option<int>)

  /** Why a call was rejected. */
  datatype Rejection =
    | NfcUnavailable | NfcDisabled | NfcDisabledForRead | ActivityUnavailable
    | ScanAlreadyActive | ScanNotActive | StartScanFailed | StopScanFailed
    | WriteModeFailed | ReadStartFailed

  /** The text each rejection carries (the failure prefixes are followed by the exception's message). */
  function RejectionMessage(r: Rejection): string
  {
    match r
    case NfcUnavailable => "NFC is not available on this device"
    case NfcDisabled => "NFC is disabled. Please enable NFC in your device settings."
    case NfcDisabledForRead => "NFC is disabled"
    case ActivityUnavailable => "Activity not available"
    case ScanAlreadyActive => "NFC scanning is already in progress"
    case ScanNotActive => "NFC scanning is not active"
    case StartScanFailed => "Failed to start NFC scanning: "
    case StopScanFailed => "Failed to stop NFC scanning: "
    case WriteModeFailed => "Failed to start NFC write mode: "
    case ReadStartFailed => "Failed to start NFC reading: "
  }

  /** How a plugin call ended: resolved, rejected, sent to the permission prompt, or left waiting for a tag. */
  datatype CallOutcome = Resolved | Rejected(reason: Rejection) | PermissionRequested | AwaitingTag

  /** The intent actions the plugin reacts to, and every other one. */
  datatype IntentAction = TagDiscovered | TechDiscovered | NdefDiscovered | OtherAction

  /** What a new intent led to. */
  datatype TagEvent =
    | NotHandled                                   // not a discovery action, or no tag attached
    | NoPendingOperation                           // a tag, but nothing waiting for one
    | WriteFinished(outcome: WriteOutcome)         // writeSuccess / readSuccess / writeError
    | ReadResolved(call: CallId, info: ReadInfo)   // the saved read call resolved
    | ReadRejected(call: CallId, error: ReadError) // "Error reading tag: …"

  /** How the saved read call is answered with what `readTag` returned or threw. */
  function ReadEvent(call: CallId, report: Result<ReadInfo, ReadError>): TagEvent
  {
    match report
    case Success(info) => ReadResolved(call, info)
    case Failure(error) => ReadRejected(call, error)
  }

  /** The parameters `write` stores, with its defaults for missing options. */
  function ParamsOf(call: WriteCall): WriteParameters
  {
    WriteParameters(call.text, call.cardType.GetOr("auto"), call.aid.GetOr(DEFAULT_AID),
      call.secure.GetOr(false), call.timeout.GetOr(5000))
  }

  /** Whether `write` sets up the card emulator rather than a reader-mode write. */
  predicate IsEmulatorMode(call: WriteCall)
  {
    call.mode.GetOr("reader") == "emulator"
  }

  lemma DefaultAidIsHex()
    ensures IsHexString(DEFAULT_AID) && |ParseHex(DEFAULT_AID)| == 7
  {
  }

  class NfcPlugin {
    var isScanning: bool
    var writeParams: Option<WriteParameters>
    var savedCallId: Option<CallId>
    /** Whether `savedCallId` came from `write` rather than `read`. */
    ghost var savedByWrite: bool
    /** The card emulator whose message `write` sets in emulator mode. */
    const emulator: HostCardEmulatorService

    /**
     * A stored write has a hex AID, and a call id saved by `write` is
     * always accompanied by that write's parameters, so the read branch of
     * a tag event only ever answers a call saved by `read`.
     */
    ghost predicate Valid()
      reads this
    {
      && (writeParams.Some? ==> IsHexString(writeParams.value.aid))
      && (savedByWrite ==> savedCallId.Some? && writeParams.Some?)
    }

    constructor (emulator: HostCardEmulatorService)
      ensures Valid()
      ensures !isScanning && writeParams == None && savedCallId == None && this.emulator == emulator
    {
      this.emulator := emulator;
      isScanning := false;
      writeParams := None;
      savedCallId := None;
      savedByWrite := false;
    }

    /** `startScanning`: rejects while already scanning; on success scanning is on. */
    method StartScanning(host: Host) returns (outcome: CallOutcome)
      requires Valid()
      modifies this
      ensures Valid()
      ensures outcome ==
        if !host.permissionGranted then PermissionRequested
        else if !host.adapterPresent then Rejected(NfcUnavailable)
        else if !host.adapterEnabled then Rejected(NfcDisabled)
        else if !host.activityPresent then Rejected(ActivityUnavailable)
        else if old(isScanning) then Rejected(ScanAlreadyActive)
        else if !host.dispatchSucceeds then Rejected(StartScanFailed)
        else Resolved
      ensures isScanning == (old(isScanning) || outcome == Resolved)
      ensures writeParams == old(writeParams) && savedCallId == old(savedCallId) && savedByWrite == old(savedByWrite)
    {
      if !host.permissionGranted {
        return PermissionRequested;
      }
      if !host.adapterPresent {
        return Rejected(NfcUnavailable);
      }
      if !host.adapterEnabled {
        return Rejected(NfcDisabled);
      }
      if !host.activityPresent {
        return Rejected(ActivityUnavailable);
      }
      if isScanning {
        return Rejected(ScanAlreadyActive);
      }
      if !host.dispatchSucceeds {
        return Rejected(StartScanFailed);
      }
      isScanning := true;
      outcome := Resolved;
    }

    /** `stopScanning`: rejects when not scanning (so a second stop fails); on success scanning is off. */
    method StopScanning(host: Host) returns (outcome: CallOutcome)
      requires Valid()
      modifies this
      ensures Valid()
      ensures outcome ==
        if !host.adapterPresent then Rejected(NfcUnavailable)
        else if !host.activityPresent then Rejected(ActivityUnavailable)
        else if !old(isScanning) then Rejected(ScanNotActive)
        else if !host.dispatchSucceeds then Rejected(StopScanFailed)
        else Resolved
      ensures isScanning == (old(isScanning) && outcome != Resolved)
      ensures writeParams == old(writeParams) && savedCallId == old(savedCallId) && savedByWrite == old(savedByWrite)
    {
      if !host.adapterPresent {
        return Rejected(NfcUnavailable);
      }
      if !host.activityPresent {
        return Rejected(ActivityUnavailable);
      }
      if !isScanning {
        return Rejected(ScanNotActive);
      }
      if !host.dispatchSucceeds {
        return Rejected(StopScanFailed);
      }
      isScanning := false;
      outcome := Resolved;
    }

    /**
     * `write`: in emulator mode, hands the text to the card emulator; in
     * reader mode, stores the parameters and the call id for the next tag,
     * replacing any earlier unserved write (the last write wins), even when
     * enabling foreground dispatch then fails.
     */
    method Write(call: WriteCall, host: Host) returns (outcome: CallOutcome)
      requires Valid()
      requires !IsEmulatorMode(call) ==> IsHexString(ParamsOf(call).aid)
      modifies this, emulator
      ensures Valid()
      ensures isScanning == old(isScanning)
      ensures !host.permissionGranted ==>
        outcome == PermissionRequested && writeParams == old(writeParams) && savedCallId == old(savedCallId)
        && emulator.messageToShare == old(emulator.messageToShare)
      ensures host.permissionGranted && IsEmulatorMode(call) ==>
        outcome == Resolved && emulator.messageToShare == call.text
        && writeParams == old(writeParams) && savedCallId == old(savedCallId)
      ensures host.permissionGranted && !IsEmulatorMode(call) ==>
        && writeParams == Some(ParamsOf(call)) && savedCallId == Some(call.callbackId)
        && emulator.messageToShare == old(emulator.messageToShare)
        && outcome == if host.adapterPresent && host.activityPresent && host.dispatchSucceeds then AwaitingTag
                      else Rejected(WriteModeFailed)
    {
      if !host.permissionGranted {
        return PermissionRequested;
      }
      if IsEmulatorMode(call) {
        emulator.SetMessageToShare(call.text);
        return Resolved;
      }
      writeParams := Some(ParamsOf(call));
      savedCallId := Some(call.callbackId);
      savedByWrite := true;
      if host.adapterPresent && host.activityPresent && host.dispatchSucceeds {
        outcome := AwaitingTag;
      } else {
        outcome := Rejected(WriteModeFailed);
      }
    }

    /**
     * `read`: saves the call id for the next tag. It looks neither at
     * `isScanning` nor at a pending write, and keeps the id saved even when
     * enabling foreground dispatch fails.
     */
    method Read(callbackId: CallId, host: Host) returns (outcome: CallOutcome)
      requires Valid()
      modifies this
      ensures Valid()
      ensures isScanning == old(isScanning) && writeParams == old(writeParams)
      ensures outcome ==
        if !host.permissionGranted then PermissionRequested
        else if !host.adapterPresent then Rejected(NfcUnavailable)
        else if !host.adapterEnabled then Rejected(NfcDisabledForRead)
        else if !(host.activityPresent && host.dispatchSucceeds) then Rejected(ReadStartFailed)
        else AwaitingTag
      ensures savedCallId ==
        if host.permissionGranted && host.adapterPresent && host.adapterEnabled then Some(callbackId)
        else old(savedCallId)
    {
      if !host.permissionGranted {
        return PermissionRequested;
      }
      if !host.adapterPresent {
        return Rejected(NfcUnavailable);
      }
      if !host.adapterEnabled {
        return Rejected(NfcDisabledForRead);
      }
      savedCallId := Some(callbackId);
      savedByWrite := false;
      if host.activityPresent && host.dispatchSucceeds {
        outcome := AwaitingTag;
      } else {
        outcome := Rejected(ReadStartFailed);
      }
    }

    /**
     * `handleOnNewIntent`: a discovered tag serves the pending write first,
     * else the saved read call; afterwards no write is pending and no call
     * id is saved. A tag that arrives with neither (for instance while only
     * `startScanning` is active) is not reported.
     */
    method HandleOnNewIntent(action: IntentAction, tag: Option<Tag>, sizeOf: seq<Record> -> nat)
      returns (event: TagEvent)
      requires Valid()
      modifies this
      ensures Valid()
      ensures isScanning == old(isScanning)
      ensures action == OtherAction || tag.None? ==>
        event == NotHandled && writeParams == old(writeParams) && savedCallId == old(savedCallId)
      ensures action != OtherAction && tag.Some? ==>
        && writeParams == None && savedCallId == None
        && (old(writeParams).Some? ==> event.WriteFinished?)
        && (old(writeParams).None? && old(savedCallId).Some? ==>
              (event.ReadResolved? || event.ReadRejected?) && event.call == old(savedCallId).value)
        && (old(writeParams).None? && old(savedCallId).None? ==> event == NoPendingOperation)
      ensures action != OtherAction && tag.Some? && old(writeParams).Some? ==>
        event == WriteFinished(WriteOutcomeFor(tag.value, old(writeParams).value, sizeOf))
      ensures action != OtherAction && tag.Some? && old(writeParams).None? && old(savedCallId).Some? ==>
        event == ReadEvent(old(savedCallId).value, ReadReport(tag.value))
      ensures event.WriteFinished? && WriteTech(tag.value.techs) == Some(IsoDep) ==>
        event.outcome == IsoDepSession(tag.value.isoDep, old(writeParams).value.text, old(writeParams).value.aid).outcome
      ensures event.ReadResolved? || event.ReadRejected? ==> !old(savedByWrite)
      ensures event.ReadRejected? ==> event.error != UnsupportedTag || ReadTech(tag.value.techs).None?
    {
      if action == OtherAction || tag.None? {
        return NotHandled;
      }
      var t := tag.value;
      if writeParams.Some? {
        var outcome := WriteNdefMessage(t, writeParams.value, sizeOf);
        writeParams := None;
        event := WriteFinished(outcome);
      } else if savedCallId.Some? {
        var result := ReadTag(t);
        match result {
          case Success(info) => event := ReadResolved(savedCallId.value, info);
          case Failure(error) => event := ReadRejected(savedCallId.value, error);
        }
      } else {
        event := NoPendingOperation;
      }
      savedCallId := None;
      savedByWrite := false;
    }

    /** `handleOnDestroy`: releases the saved call, if any; a pending write and scanning are left as they are. */
    method HandleOnDestroy() returns (released: Option<CallId>)
      requires Valid()
      modifies this
      ensures Valid()
      ensures released == old(savedCallId) && savedCallId == None
      ensures isScanning == old(isScanning) && writeParams == old(writeParams)
    {
      released := savedCallId;
      savedCallId := None;
      savedByWrite := false;
    }
  }
}
