/**
 * A detected tag as the reader side sees it, and the three rules that pick
 * which technology to use: `handleTag` (report), `writeNdefMessage` (write)
 * and `readTag` (read). Each is a first-match if/else chain over the tag's
 * technology list.
 *
 * What a real tag would answer is given as observations: whether each
 * technology's `connect` succeeds, what its getters return, and what the
 * k-th `transceive` of a session answers to a command (`None` when it
 * throws, for instance because the tag left the field).
 */
module Tags {
  import opened Bytes
  import opened Wrappers
  import NdefText

  /** The `android.nfc.tech` classes a tag can list, named without the package prefix. */
  datatype Tech = NfcA | NfcB | NfcF | NfcV | IsoDep | Ndef | NdefFormatable | MifareClassic | MifareUltralight | NfcBarcode

  /** `ndef.getNdefMessage()`: a message, `null` for an empty tag, or an exception. */
  datatype StoredMessage = Stored(records: seq<NdefText.Record>) | Blank | Unreadable

  /** The answers of the tag's `Ndef` technology. */
  datatype NdefLink = NdefLink(
    connects: bool,
    maxSize: int,
    isWritable: bool,
    message: StoredMessage,
    acceptsWrite: bool)

  /** The answers of the tag's `NdefFormatable` technology. */
  datatype FormatableLink = FormatableLink(connects: bool, acceptsFormat: bool)

  /** The answers of the tag's `IsoDep` technology; `transceive(k, cmd)` answers the k-th command of a session. */
  datatype IsoDepLink = IsoDepLink(
    connects: bool,
    hiLayerResponse: seq<byte>,
    historicalBytes: seq<byte>,
    transceive: (nat, seq<byte>) -> Option<seq<byte>>)

  /** A detected tag: its identifier, its technology list as `getTechList` orders it, and its technologies' answers. */
  datatype Tag = Tag(
    id: seq<byte>,
    techs: seq<Tech>,
    ndef: NdefLink,
    formatable: FormatableLink,
    isoDep: IsoDepLink)

  /**
   * The first technology of `order` the tag lists: the reference reading of
   * a first-match chain.
   */
  function FirstPresent(order: seq<Tech>, techs: seq<Tech>): (r: Option<Tech>)
    ensures r.None? <==> forall i :: 0 <= i < |order| ==> order[i] !in techs
    ensures r.Some? ==> r.value in techs
    ensures r.Some? ==> exists i :: 0 <= i < |order| && order[i] == r.value && (forall j :: 0 <= j < i ==> order[j] !in techs)
  {
    if order == [] then None
    else if order[0] in techs then Some(order[0])
    else
      FirstPresent(order[1..], techs)
  }

  /** The order `handleTag` tries technologies in. */
  const ReportOrder: seq<Tech> := [Ndef, NdefFormatable, MifareClassic, MifareUltralight, IsoDep]
  /** The order `writeNdefMessage` tries technologies in. */
  const WriteOrder: seq<Tech> := [IsoDep, Ndef, NdefFormatable]
  /** The order `readTag` tries technologies in. */
  const ReadOrder: seq<Tech> := [Ndef, IsoDep]

  /** The handler `handleTag` runs for a technology list; `None` when it runs none. */
  function ReportHandler(techs: seq<Tech>): (r: Option<Tech>)
    ensures r.Some? ==> r.value in techs
  {
    if Ndef in techs then Some(Ndef)
    else if NdefFormatable in techs then Some(NdefFormatable)
    else if MifareClassic in techs then Some(MifareClassic)
    else if MifareUltralight in techs then Some(MifareUltralight)
    else if IsoDep in techs then Some(IsoDep)
    else None
  }

  /** The technology `writeNdefMessage` writes with; `None` for "Tag doesn't support any known write methods". */
  function WriteTech(techs: seq<Tech>): (r: Option<Tech>)
    ensures r.Some? ==> r.value in techs
  {
    if IsoDep in techs then Some(IsoDep)
    else if Ndef in techs then Some(Ndef)
    else if NdefFormatable in techs then Some(NdefFormatable)
    else None
  }

  /** The technology `readTag` reads with; `None` for "Unsupported tag type". */
  function ReadTech(techs: seq<Tech>): (r: Option<Tech>)
    ensures r.Some? ==> r.value in techs
  {
    if Ndef in techs then Some(Ndef)
    else if IsoDep in techs then Some(IsoDep)
    else None
  }

  /** Unfolding the reference reading one step: the head of the order, if listed, else the rest. */
  lemma FirstPresentCons(t: Tech, rest: seq<Tech>, techs: seq<Tech>)
    ensures FirstPresent([t] + rest, techs) == if t in techs then Some(t) else FirstPresent(rest, techs)
  {
    assert ([t] + rest)[1..] == rest;
  }

  /** `handleTag`'s chain picks the first of Ndef, NdefFormatable, MifareClassic, MifareUltralight, IsoDep that the tag lists. */
  lemma {:induction false} ReportIsFirstMatch(techs: seq<Tech>)
    ensures ReportHandler(techs) == FirstPresent(ReportOrder, techs)
  {
    FirstPresentCons(IsoDep, [], techs);
    FirstPresentCons(MifareUltralight, [IsoDep], techs);
    FirstPresentCons(MifareClassic, [MifareUltralight, IsoDep], techs);
    FirstPresentCons(NdefFormatable, [MifareClassic, MifareUltralight, IsoDep], techs);
    FirstPresentCons(Ndef, [NdefFormatable, MifareClassic, MifareUltralight, IsoDep], techs);
    assert [IsoDep] + [] == [IsoDep];
    assert [MifareUltralight] + [IsoDep] == [MifareUltralight, IsoDep];
    assert [MifareClassic] + [MifareUltralight, IsoDep] == [MifareClassic, MifareUltralight, IsoDep];
    assert [NdefFormatable] + [MifareClassic, MifareUltralight, IsoDep] == [NdefFormatable, MifareClassic, MifareUltralight, IsoDep];
    assert [Ndef] + [NdefFormatable, MifareClassic, MifareUltralight, IsoDep] == ReportOrder;
  }

  /** `writeNdefMessage`'s chain picks the first of IsoDep, Ndef, NdefFormatable that the tag lists. */
  lemma {:induction false} WriteIsFirstMatch(techs: seq<Tech>)
    ensures WriteTech(techs) == FirstPresent(WriteOrder, techs)
  {
    FirstPresentCons(NdefFormatable, [], techs);
    FirstPresentCons(Ndef, [NdefFormatable], techs);
    FirstPresentCons(IsoDep, [Ndef, NdefFormatable], techs);
    assert [NdefFormatable] + [] == [NdefFormatable];
    assert [Ndef] + [NdefFormatable] == [Ndef, NdefFormatable];
    assert [IsoDep] + [Ndef, NdefFormatable] == WriteOrder;
  }

  /** `readTag`'s chain picks the first of Ndef, IsoDep that the tag lists. */
  lemma {:induction false} ReadIsFirstMatch(techs: seq<Tech>)
    ensures ReadTech(techs) == FirstPresent(ReadOrder, techs)
  {
    FirstPresentCons(IsoDep, [], techs);
    FirstPresentCons(Ndef, [IsoDep], techs);
    assert [IsoDep] + [] == [IsoDep];
    assert [Ndef] + [IsoDep] == ReadOrder;
  }

  /**
   * The three rules disagree on a tag listing both `Ndef` and `IsoDep`:
   * reporting and reading use NDEF, writing uses ISO-DEP.
   */
  lemma WriteOverridesNdef(techs: seq<Tech>)
    requires IsoDep in techs
    ensures WriteTech(techs) == Some(IsoDep)
    ensures Ndef in techs ==> ReportHandler(techs) == Some(Ndef) && ReadTech(techs) == Some(Ndef)
  {
  }

  /** A technology outside the three chains never changes their choice. */
  lemma {:induction false} OtherTechsIgnored(techs: seq<Tech>, extra: Tech)
    requires extra in {NfcA, NfcB, NfcF, NfcV, NfcBarcode}
    ensures ReportHandler(techs + [extra]) == ReportHandler(techs)
    ensures WriteTech(techs + [extra]) == WriteTech(techs)
    ensures ReadTech(techs + [extra]) == ReadTech(techs)
  {
    forall t | t != extra ensures t in techs + [extra] <==> t in techs {
      if t in techs + [extra] {
        var i :| 0 <= i < |techs + [extra]| && (techs + [extra])[i] == t;
        assert i < |techs| && techs[i] == t;
      }
    }
  }
}
