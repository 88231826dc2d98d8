/**
 What export verification accepts: exactly the documents that exporting a chain under a verified checkpoint writes.
 */
module AuditExportProofs {
  import opened Common
  import opened Text
  import opened Json
  import opened AuditEvent
  import opened AuditCanonical
  import opened AuditChain
  import opened AuditExport

  // ---------- the envelope is read back ----------

  lemma {:induction false} ReadRecordsBack(ws: seq<WireRecord>)
    ensures ReadRecords(RecordsJson(ws)) == Some(ws)
  {
    if ws != [] {
      var first := RecordJson(ws[0]);
      assert first.members[0].value == Num(ws[0].sequence);
      assert ReadRecord(first) == Some(ws[0]);
      ReadRecordsBack(ws[1..]);
      assert RecordsJson(ws)[1..] == RecordsJson(ws[1..]);
      assert [ws[0]] + ws[1..] == ws;
    }
  }

  lemma ReadCheckpointBack(w: WireCheckpoint)
    ensures ReadCheckpoint(CheckpointJson(w)) == Some(w)
  {
    hide Base64, Unbase64;
    if w.signature.Some? { Base64RoundTrip(w.signature.value); }
  }

  lemma ReadWireBack(w: Wire)
    ensures ReadWire(WireJson(w)) == Some(w)
  {
    hide ReadRecords, RecordsJson, ReadCheckpoint, CheckpointJson;
    ReadRecordsBack(w.records);
    ReadCheckpointBack(w.checkpoint);
  }

  // ---------- no string of an export needs escaping ----------

  lemma SignaturePlain(s: seq<Byte>)
    ensures PlainText(Base64(s))
  {
    hide Base64;
    Base64Shape(s);
  }

  lemma CheckpointJsonPlain(c: Checkpoint)
    requires ValidPayload(c)
    ensures Unescaped(CheckpointJson(CheckpointToWire(c)))
  {
    hide Hex, FormatTime, Base64, PlainText;
    PayloadPlain(c);
    SignaturePlain(c.signature);
    var p := PayloadMembers(c);
    assert Unescaped(p[2].value) && Unescaped(p[3].value) && Unescaped(p[4].value);
    EnvelopeKeysPlain();
    CheckpointKeysPlain();
  }

  lemma RecordJsonPlain(r: Record)
    requires Valid(r.event)
    ensures Unescaped(RecordJson(RecordToWire(r)))
  {
    hide Hex, PlainText, Valid, ToJson;
    ToJsonPlain(r.event);
    HexPlain(r.eventHash);
    EnvelopeKeysPlain();
    CheckpointKeysPlain();
  }

  lemma WireJsonPlain(rs: seq<Record>, c: Checkpoint)
    requires ValidPayload(c) && forall i :: 0 <= i < |rs| ==> Valid(rs[i].event)
    ensures Civil(c.createdAt) && Unescaped(WireJson(ToWire(rs, c)))
  {
    hide ValidPayload, Valid, RecordToWire, RecordJson, CheckpointJson, CheckpointToWire, PlainText;
    PayloadCivil(c);
    CheckpointJsonPlain(c);
    EnvelopeKeysPlain();
    CheckpointKeysPlain();
    forall i | 0 <= i < |rs| ensures Unescaped(RecordsJson(RecordsToWire(rs))[i]) { RecordJsonPlain(rs[i]); }
  }

  lemma ExportDecodes(hash: Hasher, rs: seq<Record>, c: Checkpoint)
    requires Exportable(hash, rs, c)
    ensures Civil(c.createdAt) && DecodeWire(Export(hash, rs, c).value) == Some(ToWire(rs, c))
  {
    hide ValidPayload, ValidChain, WireJson, Print, Decode, ReadWire, CheckpointToWire;
    PayloadCivil(c);
    ChainEventsValid(hash, rs);
    WireJsonPlain(rs, c);
    DecodePrint(WireJson(ToWire(rs, c)));
    ReadWireBack(ToWire(rs, c));
  }

  // ---------- the records are read back ----------

  lemma CheckpointBack(c: Checkpoint)
    requires ValidPayload(c)
    ensures Civil(c.createdAt) && CheckpointFromWire(CheckpointToWire(c)) == Some(c)
  {
    hide Hex, Unhex, FormatTime, ParseTime, Print, PayloadMembers;
    HexRoundTrip(c.headHash);
    TimeRoundTrip(c.createdAt);
  }

  function SortRecord(r: Record): Record { r.(event := SortLists(r.event)) }

  function SortRecords(rs: seq<Record>): (ts: seq<Record>)
    ensures |ts| == |rs| && forall i :: 0 <= i < |rs| ==> ts[i] == SortRecord(rs[i])
  {
    if rs == [] then [] else SortRecords(rs[..|rs| - 1]) + [SortRecord(rs[|rs| - 1])]
  }

  lemma RecordBack(r: Record, i: nat)
    requires Valid(r.event) && r.sequence == i + 1
    ensures DecodeRecord(RecordToWire(r), i) == Ok(SortRecord(r))
  {
    hide Valid, SortLists, EventFromCanonical, Hex, Unhex, Print, ToJson;
    CanonicalRoundTrip(r.event);
    HexRoundTrip(r.eventHash);
  }

  lemma {:induction false} RecordsBack(hash: Hasher, rs: seq<Record>, n: nat)
    requires ValidChain(hash, rs) && n <= |rs|
    ensures DecodeRecords(RecordsToWire(rs), n) == Ok(SortRecords(rs[..n]))
  {
    hide DecodeRecord, RecordToWire, SortRecord, Valid, EventHash;
    if n > 0 {
      RecordsBack(hash, rs, n - 1);
      ChainEventsValid(hash, rs);
      assert LinkedAt(hash, rs, n - 1);
      RecordBack(rs[n - 1], n - 1);
      assert rs[..n][..n - 1] == rs[..n - 1];
    }
  }

  lemma SortRecordKeeps(r: Record)
    requires Valid(r.event)
    ensures SameRecord(r, SortRecord(r)) && SortRecord(r).event.previousHash == r.event.previousHash
  {
    hide Valid, Sorted, Canonical;
    SortListsKeepsCanonical(r.event);
  }

  lemma SameEventHash(hash: Hasher, e: Event, f: Event)
    requires Canonical(e) == Canonical(f)
    ensures EventHash(hash, e) == EventHash(hash, f)
  {
  }

  lemma SortKeepsChain(hash: Hasher, rs: seq<Record>)
    requires ValidChain(hash, rs)
    ensures ValidChain(hash, SortRecords(rs))
  {
    hide SortRecord, Valid, EventHash, Canonical;
    ChainEventsValid(hash, rs);
    var ts := SortRecords(rs);
    forall i | 0 <= i < |rs| ensures LinkedAt(hash, ts, i) {
      assert LinkedAt(hash, rs, i);
      SortRecordKeeps(rs[i]);
      if i > 0 { SortRecordKeeps(rs[i - 1]); }
      SameEventHash(hash, rs[i].event, ts[i].event);
    }
  }

  // ---------- the theorems ----------

  /**
   What is exported is accepted under exactly the keys that accept its checkpoint, and otherwise refused for its
   signature.
   */
  lemma ExportVerifies(hash: Hasher, key: VerificationKey, rs: seq<Record>, c: Checkpoint)
    requires Exportable(hash, rs, c)
    ensures CheckExport(hash, key, Export(hash, rs, c).value) == if VerifyCheckpoint(c, key) then Ok(())
            else Err(CheckpointRejected)
  {
    hide Export, DecodeWire, VerifyCheckpoint, CheckpointFromWire, CheckpointToWire, ValidPayload, Verdict,
         DecodeRecords, ValidChain;
    ExportDecodes(hash, rs, c);
    CheckpointBack(c);
    RecordsBack(hash, rs, |rs|);
    assert rs[..|rs|] == rs;
    SortKeepsChain(hash, rs);
    VerdictIsValidity(hash, SortRecords(rs));
  }

  /** The records and the checkpoint that verification reads from an export. */
  function Content(text: string): Option<(seq<Record>, Checkpoint)> {
    var w :- DecodeWire(text);
    var c :- CheckpointFromWire(w.checkpoint);
    var rs := DecodeRecords(w.records, |w.records|);
    if rs.Err? then None else Some((rs.value, c))
  }

  lemma {:induction false} DecodedRecord(ws: seq<WireRecord>, n: nat, i: nat)
    requires i < n <= |ws| && DecodeRecords(ws, n).Ok?
    ensures DecodeRecord(ws[i], i) == Ok(DecodeRecords(ws, n).value[i])
  {
    hide DecodeRecord;
    if i < n - 1 { DecodedRecord(ws, n - 1, i); }
  }

  lemma EventTextBack(text: string)
    requires EventFromCanonical(text).Some?
    ensures var e := EventFromCanonical(text).value; Valid(e) && Print(EventToWire(e)) == text
  {
    hide Valid, ToJson, Print, FromJson, Decode;
  }

  lemma RecordTextBack(w: WireRecord, i: nat)
    requires DecodeRecord(w, i).Ok?
    ensures var r := DecodeRecord(w, i).value;
            Valid(r.event) && Print(RecordJson(RecordToWire(r))) == Print(RecordJson(w))
  {
    hide Valid, Print, EventFromCanonical, EventToWire, Hex, Unhex, RecordJson;
    EventTextBack(Print(w.event));
    RecordTextSame(RecordToWire(DecodeRecord(w, i).value), w);
  }

  lemma RecordTextSame(v: WireRecord, w: WireRecord)
    requires v.sequence == w.sequence && v.eventHash == w.eventHash && Print(v.event) == Print(w.event)
    ensures Print(RecordJson(v)) == Print(RecordJson(w))
  {
    hide PrintMembers;
    PrintMembersSame(RecordJson(v).members, RecordJson(w).members);
  }

  lemma CheckpointWireBack(w: WireCheckpoint)
    requires CheckpointFromWire(w).Some? && w.signature.Some?
    ensures var c := CheckpointFromWire(w).value; Civil(c.createdAt) && ValidPayload(c) && CheckpointToWire(c) == w
  {
    hide Hex, Unhex, FormatTime, Print, PayloadMembers;
  }

  lemma WireTextSame(v: Wire, w: Wire)
    requires v.schemaVersion == w.schemaVersion && v.checkpoint == w.checkpoint && |v.records| == |w.records| > 0
    requires forall i :: 0 <= i < |v.records| ==> Print(RecordJson(v.records[i])) == Print(RecordJson(w.records[i]))
    ensures Print(WireJson(v)) == Print(WireJson(w))
  {
    hide RecordJson, CheckpointJson, PrintItems, PrintMembers;
    PrintItemsSame(RecordsJson(v.records), RecordsJson(w.records));
    PrintMembersSame(WireJson(v).members, WireJson(w).members);
  }

  lemma DecodeWireText(text: string)
    requires DecodeWire(text).Some?
    ensures Print(WireJson(DecodeWire(text).value)) == text && DecodeWire(text).value.schemaVersion == 1
            && DecodeWire(text).value.records != []
  {
    hide Decode, ReadWire, Print, WireJson;
  }

  /** An accepted text is the export of the records and the checkpoint read from it. */
  lemma AcceptedIsExport(hash: Hasher, key: VerificationKey, text: string)
    requires CheckExport(hash, key, text) == Ok(())
    ensures Content(text).Some?
    ensures var (rs, c) := Content(text).value;
            VerifyCheckpoint(c, key) && Exportable(hash, rs, c) && Export(hash, rs, c) == Some(text)
  {
    hide DecodeWire, CheckpointFromWire, DecodeRecord, Verdict, ValidPayload, Payload, WireJson, Print,
         CheckpointToWire, RecordToWire, DecodeRecords, ValidChain;
    var w := DecodeWire(text).value;
    var (rs, c) := Content(text).value;
    DecodeWireText(text);
    SignaturePresent(w.checkpoint);
    CheckpointWireBack(w.checkpoint);
    VerdictIsValidity(hash, rs);
    forall i | 0 <= i < |rs| ensures Print(RecordJson(RecordToWire(rs[i]))) == Print(RecordJson(w.records[i])) {
      DecodedRecord(w.records, |rs|, i);
      RecordTextBack(w.records[i], i);
    }
    WireTextSame(ToWire(rs, c), w);
  }

  lemma SignaturePresent(w: WireCheckpoint)
    requires CheckpointFromWire(w).Some? && |CheckpointFromWire(w).value.signature| == SIGNATURE_SIZE
    ensures w.signature.Some?
  {
    hide DigestFromHex, ParseTime, Payload;
  }

  /** Verification accepts exactly the exports of chains under checkpoints that the key accepts. */
  lemma AcceptsExactlyExports(hash: Hasher, key: VerificationKey, text: string)
    ensures CheckExport(hash, key, text) == Ok(()) <==>
            exists rs, c :: Export(hash, rs, c) == Some(text) && VerifyCheckpoint(c, key)
  {
    hide CheckExport, Export, VerifyCheckpoint, Content;
    if CheckExport(hash, key, text) == Ok(()) {
      AcceptedIsExport(hash, key, text);
      var (rs, c) := Content(text).value;
      assert Export(hash, rs, c) == Some(text) && VerifyCheckpoint(c, key);
    }
    if rs, c :| Export(hash, rs, c) == Some(text) && VerifyCheckpoint(c, key) {
      ExportExportable(hash, rs, c);
      ExportVerifies(hash, key, rs, c);
    }
  }

  lemma ExportExportable(hash: Hasher, rs: seq<Record>, c: Checkpoint)
    ensures Export(hash, rs, c).Some? <==> Exportable(hash, rs, c)
  {
    hide Exportable, Print, WireJson;
  }

  /**
   Two accepted exports whose checkpoints sign the same statement hold the same records, and are the same text up to the
   signature bytes, unless two of their events collide under the hash.
   */
  lemma CheckpointAdmitsOneChain(hash: Hasher, key: VerificationKey, text1: string, text2: string)
    requires CheckExport(hash, key, text1) == CheckExport(hash, key, text2) == Ok(())
    requires Content(text1).Some? && Content(text2).Some?
             && Payload(Content(text1).value.1) == Payload(Content(text2).value.1)
    ensures var ((rs, c), (ts, d)) := (Content(text1).value, Content(text2).value);
            Collide(hash, rs, ts) || (SameRecords(rs, ts) && (c.signature == d.signature ==> text1 == text2))
  {
    hide CheckExport, Content, Export, Payload, ValidPayload, VerifyCheckpoint, Collide, SameRecord, ValidChain;
    AcceptedIsExport(hash, key, text1);
    AcceptedIsExport(hash, key, text2);
    var (rs, c) := Content(text1).value;
    var (ts, d) := Content(text2).value;
    VerifiedHasPayload(c, key);
    PayloadInjective(c, d);
    LastSequence(hash, rs);
    LastSequence(hash, ts);
    LastHashDeterminesChain(hash, rs, ts);
    if SameRecords(rs, ts) && c.signature == d.signature { SameRecordsSameText(hash, rs, ts, c); }
  }

  /**
   Where the key accepts only the signer's signatures, every accepted export ends in a head that the signer signed.
   */
  lemma AcceptedExportWasSigned(hash: Hasher, signer: Signer, key: VerificationKey, text: string)
    requires Paired(signer, key) && Exclusive(signer, key) && CheckExport(hash, key, text) == Ok(())
    ensures Content(text).Some?
    ensures var (rs, c) := Content(text).value;
            && rs != [] && ValidChain(hash, rs)
            && var last := rs[|rs| - 1];
               && last.sequence == |rs|
               && CreateCheckpoint(last.sequence, last.eventHash, c.createdAt, signer, false) == Some(c)
  {
    hide CheckExport, Content, Export, ValidPayload, VerifyCheckpoint, ValidChain, Paired, Exclusive, CreateCheckpoint;
    AcceptedIsExport(hash, key, text);
    var (rs, c) := Content(text).value;
    LastSequence(hash, rs);
    AcceptedExactlyIfSigned(c, signer, key);
  }

  lemma VerifiedHasPayload(c: Checkpoint, key: VerificationKey)
    requires VerifyCheckpoint(c, key)
    ensures Payload(c).Some?
  {
    hide Payload;
  }

  lemma LastSequence(hash: Hasher, rs: seq<Record>)
    requires ValidChain(hash, rs) && rs != []
    ensures rs[|rs| - 1].sequence == |rs|
  {
    hide EventHash;
    assert LinkedAt(hash, rs, |rs| - 1);
  }

  lemma SameRecordsSameText(hash: Hasher, rs: seq<Record>, ts: seq<Record>, c: Checkpoint)
    requires Exportable(hash, rs, c) && Exportable(hash, ts, c) && SameRecords(rs, ts)
    ensures Export(hash, rs, c) == Export(hash, ts, c)
  {
    hide ValidPayload, ValidChain, Print, WireJson, RecordJson, CheckpointToWire, RecordToWire, SameRecord;
    PayloadCivil(c);
    ChainEventsValid(hash, rs);
    ChainEventsValid(hash, ts);
    forall i | 0 <= i < |rs| ensures Print(RecordJson(RecordToWire(rs[i]))) == Print(RecordJson(RecordToWire(ts[i]))) {
      SameRecordSameText(rs[i], ts[i]);
    }
    WireTextSame(ToWire(rs, c), ToWire(ts, c));
  }

  lemma SameRecordSameText(r: Record, t: Record)
    requires Valid(r.event) && Valid(t.event) && SameRecord(r, t)
    ensures Print(RecordJson(RecordToWire(r))) == Print(RecordJson(RecordToWire(t)))
  {
    hide Valid, ToJson, Print, RecordJson;
    RecordTextSame(RecordToWire(r), RecordToWire(t));
  }
}
