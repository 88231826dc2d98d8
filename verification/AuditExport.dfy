/** Signed checkpoints and the export document that carries a chain through one checkpoint. Ed25519 is a parameter. */
module AuditExport {
  import opened Common
  import opened Text
  import opened Json
  import opened AuditEvent
  import opened AuditCanonical
  import opened AuditChain
  import Patterns

  const SIGNING_DOMAIN := "compliantai:audit-checkpoint:v1\0"
  const SIGNATURE_SIZE := 64

  datatype Checkpoint = Checkpoint(schemaVersion: Int64, sequence: Int64, headHash: Digest, keyId: string,
                                   createdAt: Time, signature: seq<Byte>)

  datatype Signer = Signer(initialized: bool, keyId: string, sign: string -> seq<Byte>)

  datatype VerificationKey = VerificationKey(initialized: bool, keyId: string, verify: (string, seq<Byte>) -> bool)

  datatype ExportError = InvalidExport | CheckpointRejected | ChainBroken(sequence: int)

  // ---------- checkpoints ----------

  predicate ValidPayload(c: Checkpoint) {
    && c.schemaVersion == 1 && c.sequence > 0 && c.headHash != ZERO
    && Patterns.IsIdentifier(c.keyId) && ValidTime(c.createdAt)
  }

  function PayloadMembers(c: Checkpoint): seq<Member>
    requires c.createdAt.nano < 1_000_000_000
  {
    [Member("schema_version", Num(c.schemaVersion)), Member("sequence", Num(c.sequence)),
     Member("chain_head_hash", HexStr(c.headHash)),
     Member("signing_key_id", Str(c.keyId)), Member("created_at", Str(FormatTime(c.createdAt)))]
  }

  /** The statement a checkpoint signs. */
  function Payload(c: Checkpoint): Option<string> {
    if ValidPayload(c) then Some(Print(Obj(PayloadMembers(c)))) else None
  }

  function Sign(signer: Signer, cancelled: bool, payload: string): Option<seq<Byte>> {
    if !signer.initialized || cancelled then None else Some(signer.sign(SIGNING_DOMAIN + payload))
  }

  function CreateCheckpoint(sequence: Int64, headHash: Digest, createdAt: Time, signer: Signer,
                            cancelled: bool): Option<Checkpoint> {
    var c := Checkpoint(1, sequence, headHash, if signer.initialized then signer.keyId else "", createdAt, []);
    var payload :- Payload(c);
    var signature :- Sign(signer, cancelled, payload);
    if |signature| != SIGNATURE_SIZE then None else Some(c.(signature := signature))
  }

  predicate VerifyCheckpoint(c: Checkpoint, key: VerificationKey) {
    && key.initialized && c.keyId == key.keyId && |c.signature| == SIGNATURE_SIZE
    && Payload(c).Some? && key.verify(SIGNING_DOMAIN + Payload(c).value, c.signature)
  }

  /** The key accepts what the signer signs, and signatures have the fixed size. */
  ghost predicate Paired(signer: Signer, key: VerificationKey) {
    && signer.initialized && key.initialized && signer.keyId == key.keyId
    && forall m :: |signer.sign(m)| == SIGNATURE_SIZE && key.verify(m, signer.sign(m))
  }

  /** A checkpoint made by a signer verifies under its key, and says what it was asked to say. */
  lemma CreatedCheckpointVerifies(sequence: Int64, headHash: Digest, createdAt: Time, signer: Signer, cancelled: bool,
                                  key: VerificationKey)
    requires Paired(signer, key)
    ensures var r := CreateCheckpoint(sequence, headHash, createdAt, signer, cancelled);
            && (r.Some? <==>
                sequence > 0 && headHash != ZERO && Patterns.IsIdentifier(signer.keyId)
                && ValidTime(createdAt) && !cancelled)
            && (r.Some? ==>
                VerifyCheckpoint(r.value, key) && r.value.sequence == sequence
                && r.value.headHash == headHash
                && r.value.createdAt == createdAt)
  {
    hide Patterns.IsIdentifier, Print, HexStr, FormatTime, Civil;
  }

  /** The key accepts for each message exactly the signer's signature. */
  ghost predicate Exclusive(signer: Signer, key: VerificationKey) {
    forall m, s :: key.verify(m, s) <==> s == signer.sign(m)
  }

  /** Under such a key exactly the checkpoints that the signer makes are accepted. */
  lemma AcceptedExactlyIfSigned(c: Checkpoint, signer: Signer, key: VerificationKey)
    requires Paired(signer, key) && Exclusive(signer, key)
    ensures VerifyCheckpoint(c, key) <==>
            CreateCheckpoint(c.sequence, c.headHash, c.createdAt, signer, false) == Some(c)
  {
    hide Patterns.IsIdentifier, Print, HexStr, FormatTime, Civil;
    if Payload(c).Some? {
      SameStatement(c, Checkpoint(1, c.sequence, c.headHash, c.keyId, c.createdAt, []));
    }
  }

  lemma SameStatement(c: Checkpoint, d: Checkpoint)
    requires Payload(c).Some? && d == c.(signature := d.signature)
    ensures Payload(d) == Payload(c)
  {
    hide Patterns.IsIdentifier, Print, HexStr, FormatTime, Civil;
  }

  /** A key that was never set up accepts nothing, and a set-up key nothing under another identity. */
  lemma ForeignKeyRefuses(c: Checkpoint, key: VerificationKey)
    requires !key.initialized || c.keyId != key.keyId
    ensures !VerifyCheckpoint(c, key)
  {
  }

  lemma CheckpointKeysPlain()
    ensures PlainText("schema_version") && PlainText("sequence") && PlainText("chain_head_hash")
    ensures PlainText("signing_key_id") && PlainText("created_at")
  {
  }

  lemma EnvelopeKeysPlain()
    ensures PlainText("signature") && PlainText("event") && PlainText("event_hash") && PlainText("records")
            && PlainText("checkpoint")
  {
  }

  lemma PayloadPlain(c: Checkpoint)
    requires ValidPayload(c)
    ensures forall i :: 0 <= i < 5 ==> PlainText(PayloadMembers(c)[i].key) && Unescaped(PayloadMembers(c)[i].value)
  {
    hide Hex, FormatTime, Patterns.IsIdentifier, PlainText;
    CheckpointKeysPlain();
    HexPlain(c.headHash);
    IdentifierPlain(c.keyId);
    TimePlain(c.createdAt);
  }

  lemma MembersDetermine(c: Checkpoint, d: Checkpoint)
    requires Civil(c.createdAt) && Civil(d.createdAt) && PayloadMembers(c) == PayloadMembers(d)
    ensures c == d.(signature := c.signature)
  {
    hide Hex, FormatTime, Unhex, ParseTime;
    var k := PayloadMembers(c);
    var l := PayloadMembers(d);
    assert k[0] == l[0] && k[1] == l[1] && k[2] == l[2] && k[3] == l[3] && k[4] == l[4];
    HexRoundTrip(c.headHash);
    HexRoundTrip(d.headHash);
    TimeRoundTrip(c.createdAt);
    TimeRoundTrip(d.createdAt);
  }

  /** A signed statement names one position, head hash, key and time. */
  lemma PayloadInjective(c: Checkpoint, d: Checkpoint)
    requires Payload(c).Some? && Payload(c) == Payload(d)
    ensures c == d.(signature := c.signature)
  {
    hide Print, Decode, PayloadMembers, Unescaped;
    PayloadUnescaped(c);
    PayloadUnescaped(d);
    DecodePrint(Obj(PayloadMembers(c)));
    DecodePrint(Obj(PayloadMembers(d)));
    MembersDetermine(c, d);
  }

  lemma PayloadUnescaped(c: Checkpoint)
    requires ValidPayload(c)
    ensures Unescaped(Obj(PayloadMembers(c)))
  {
    hide ValidPayload, PlainText, HexStr, FormatTime;
    PayloadPlain(c);
  }

  // ---------- the wire form ----------

  datatype WireCheckpoint = WireCheckpoint(schemaVersion: Int64, sequence: Int64, headHash: string, keyId: string,
                                           createdAt: string, signature: Option<seq<Byte>>)

  datatype WireRecord = WireRecord(sequence: Int64, event: Json, eventHash: string)

  datatype Wire = Wire(schemaVersion: Int64, records: seq<WireRecord>, checkpoint: WireCheckpoint)

  function CheckpointToWire(c: Checkpoint): WireCheckpoint
    requires c.createdAt.nano < 1_000_000_000
  {
    WireCheckpoint(c.schemaVersion, c.sequence, Hex(c.headHash), c.keyId, FormatTime(c.createdAt), Some(c.signature))
  }

  function CheckpointFromWire(w: WireCheckpoint): Option<Checkpoint> {
    var head :- DigestFromHex(w.headHash);
    var createdAt :- ParseTime(w.createdAt);
    var c := Checkpoint(w.schemaVersion, w.sequence, head, w.keyId, createdAt,
                        if w.signature.Some? then w.signature.value else []);
    if Payload(c).Some? then Some(c) else None
  }

  /** An event without canonical text has no wire form; `Null` stands in for it and is never written. */
  function EventToWire(e: Event): Json { if Valid(e) then ToJson(e) else Null }

  function RecordToWire(r: Record): WireRecord { WireRecord(r.sequence, EventToWire(r.event), Hex(r.eventHash)) }

  function SignatureJson(s: Option<seq<Byte>>): Json { if s.None? then Null else Str(Base64(s.value)) }

  function CheckpointJson(w: WireCheckpoint): Json {
    Obj([Member("schema_version", Num(w.schemaVersion)), Member("sequence", Num(w.sequence)),
         Member("chain_head_hash", Str(w.headHash)),
         Member("signing_key_id", Str(w.keyId)), Member("created_at", Str(w.createdAt)),
         Member("signature", SignatureJson(w.signature))])
  }

  function RecordJson(w: WireRecord): Json {
    Obj([Member("sequence", Num(w.sequence)), Member("event", w.event), Member("event_hash", Str(w.eventHash))])
  }

  function RecordsJson(ws: seq<WireRecord>): (js: seq<Json>)
    ensures |js| == |ws| && forall i :: 0 <= i < |ws| ==> js[i] == RecordJson(ws[i])
  {
    if ws == [] then [] else [RecordJson(ws[0])] + RecordsJson(ws[1..])
  }

  function WireJson(w: Wire): Json {
    Obj([Member("schema_version", Num(w.schemaVersion)), Member("records", Arr(RecordsJson(w.records))),
         Member("checkpoint", CheckpointJson(w.checkpoint))])
  }

  // ---------- reading the wire form ----------

  predicate HasKeys(j: Json, keys: seq<string>) {
    j.Obj? && |j.members| == |keys| && forall i :: 0 <= i < |keys| ==> j.members[i].key == keys[i]
  }

  function AsSignature(j: Json): Option<Option<seq<Byte>>> {
    if j.Null? then Some(None)
    else
      var text :- AsStr(j);
      var bytes :- Unbase64(text);
      Some(Some(bytes))
  }

  function ReadCheckpoint(j: Json): Option<WireCheckpoint> {
    if !HasKeys(j, ["schema_version", "sequence", "chain_head_hash", "signing_key_id", "created_at", "signature"])
    then None
    else
      var m := j.members;
      var version :- AsNum(m[0].value);
      var sequence :- AsNum(m[1].value);
      var head :- AsStr(m[2].value);
      var keyId :- AsStr(m[3].value);
      var createdAt :- AsStr(m[4].value);
      var signature :- AsSignature(m[5].value);
      Some(WireCheckpoint(version, sequence, head, keyId, createdAt, signature))
  }

  function ReadRecord(j: Json): Option<WireRecord> {
    if !HasKeys(j, ["sequence", "event", "event_hash"]) then None
    else
      var sequence :- AsNum(j.members[0].value);
      var eventHash :- AsStr(j.members[2].value);
      Some(WireRecord(sequence, j.members[1].value, eventHash))
  }

  function ReadRecords(js: seq<Json>): Option<seq<WireRecord>> {
    if js == [] then Some([])
    else
      var first :- ReadRecord(js[0]);
      var rest :- ReadRecords(js[1..]);
      Some([first] + rest)
  }

  function ReadWire(j: Json): Option<Wire> {
    if !HasKeys(j, ["schema_version", "records", "checkpoint"]) || !j.members[1].value.Arr? then None
    else
      var version :- AsNum(j.members[0].value);
      var records :- ReadRecords(j.members[1].value.items);
      var checkpoint :- ReadCheckpoint(j.members[2].value);
      Some(Wire(version, records, checkpoint))
  }

  /** Strict decoding of an export: the text must be exactly what encoding the decoded envelope gives. */
  function DecodeWire(text: string): Option<Wire> {
    var j :- Decode(text);
    var w :- ReadWire(j);
    if w.schemaVersion == 1 && w.records != [] && Print(WireJson(w)) == text then Some(w) else None
  }

  /** One wire record at position `i` (counted from zero), or the sequence to report. */
  function DecodeRecord(w: WireRecord, i: nat): Result<Record, int> {
    if w.sequence != i + 1 then Err(if 0 < w.sequence < i + 1 then w.sequence else i + 1)
    else
      var e := EventFromCanonical(Print(w.event));
      var d := DigestFromHex(w.eventHash);
      if e.None? || d.None? then Err(w.sequence) else Ok(Record(w.sequence, e.value, d.value))
  }

  function DecodeRecords(ws: seq<WireRecord>, n: nat): (r: Result<seq<Record>, int>)
    requires n <= |ws|
    ensures r.Ok? ==> |r.value| == n
  {
    if n == 0 then Ok([])
    else
      var before := DecodeRecords(ws, n - 1);
      if before.Err? then before
      else
        var r := DecodeRecord(ws[n - 1], n - 1);
        if r.Err? then Err(r.error) else Ok(before.value + [r.value])
  }

  /** Whether a verified chain ends where the checkpoint says. */
  function Alignment(c: Checkpoint, last: Record): Result<(), ExportError> {
    if c.sequence != last.sequence
    then Err(ChainBroken(if last.sequence > c.sequence then c.sequence + 1 else c.sequence))
    else if c.headHash != last.eventHash then Err(ChainBroken(c.sequence))
    else Ok(())
  }

  function CheckRecords(hash: Hasher, ws: seq<WireRecord>, c: Checkpoint): Result<(), ExportError>
    requires ws != []
  {
    var records := DecodeRecords(ws, |ws|);
    if records.Err? then Err(ChainBroken(records.error))
    else
      var verdict := Verdict(hash, records.value);
      if verdict.Some? then Err(ChainBroken(verdict.value)) else Alignment(c, records.value[|ws| - 1])
  }

  function CheckExport(hash: Hasher, key: VerificationKey, text: string): Result<(), ExportError> {
    var w := DecodeWire(text);
    if w.None? then Err(InvalidExport)
    else
      var c := CheckpointFromWire(w.value.checkpoint);
      if c.None? then Err(InvalidExport)
      else if !VerifyCheckpoint(c.value, key) then Err(CheckpointRejected)
      else CheckRecords(hash, w.value.records, c.value)
  }

  method VerifyExport(hash: Hasher, key: VerificationKey, text: string) returns (r: Result<(), ExportError>)
    ensures r == CheckExport(hash, key, text)
  {
    hide DecodeWire, CheckpointFromWire, VerifyCheckpoint, EventFromCanonical, DigestFromHex, Verdict, Print;
    var wire := DecodeWire(text);
    if wire.None? { return Err(InvalidExport); }
    var ws := wire.value.records;
    WireHasRecords(text);
    var checkpoint := CheckpointFromWire(wire.value.checkpoint);
    if checkpoint.None? { return Err(InvalidExport); }
    if !VerifyCheckpoint(checkpoint.value, key) { return Err(CheckpointRejected); }
    var records: seq<Record> := [];
    for i := 0 to |ws|
      invariant DecodeRecords(ws, i) == Ok(records)
    {
      var expectedSequence: int := i + 1;
      if ws[i].sequence != expectedSequence {
        var affected: int := expectedSequence;
        if 0 < ws[i].sequence < affected { affected := ws[i].sequence; }
        DecodeRecordsFails(ws, i + 1);
        return Err(ChainBroken(affected));
      }
      var event := EventFromCanonical(Print(ws[i].event));
      if event.None? { DecodeRecordsFails(ws, i + 1); return Err(ChainBroken(ws[i].sequence)); }
      var eventHash := DigestFromHex(ws[i].eventHash);
      if eventHash.None? { DecodeRecordsFails(ws, i + 1); return Err(ChainBroken(ws[i].sequence)); }
      records := records + [Record(ws[i].sequence, event.value, eventHash.value)];
    }
    var verdict := VerifyChain(hash, records);
    if verdict.Some? { return Err(ChainBroken(verdict.value)); }
    var last := records[|records| - 1];
    if checkpoint.value.sequence != last.sequence {
      var affected: int := checkpoint.value.sequence;
      if last.sequence > checkpoint.value.sequence { affected := checkpoint.value.sequence + 1; }
      return Err(ChainBroken(affected));
    }
    if checkpoint.value.headHash != last.eventHash { return Err(ChainBroken(checkpoint.value.sequence)); }
    r := Ok(());
  }

  lemma WireHasRecords(text: string)
    requires DecodeWire(text).Some?
    ensures DecodeWire(text).value.records != []
  {
    hide Decode, ReadWire, Print;
  }

  lemma {:induction false} DecodeRecordsFails(ws: seq<WireRecord>, n: nat)
    requires n <= |ws| && DecodeRecords(ws, n).Err?
    ensures DecodeRecords(ws, |ws|) == DecodeRecords(ws, n)
    decreases |ws| - n
  {
    hide DecodeRecord;
    if n < |ws| { DecodeRecordsFails(ws, n + 1); }
  }

  // ---------- writing ----------

  predicate Exportable(hash: Hasher, rs: seq<Record>, c: Checkpoint) {
    && rs != [] && ValidChain(hash, rs)
    && c.sequence == rs[|rs| - 1].sequence && c.headHash == rs[|rs| - 1].eventHash
    && |c.signature| == SIGNATURE_SIZE && ValidPayload(c)
  }

  function RecordsToWire(rs: seq<Record>): (ws: seq<WireRecord>)
    ensures |ws| == |rs| && forall i :: 0 <= i < |rs| ==> ws[i] == RecordToWire(rs[i])
  {
    if rs == [] then [] else RecordsToWire(rs[..|rs| - 1]) + [RecordToWire(rs[|rs| - 1])]
  }

  lemma ChainEventsValid(hash: Hasher, rs: seq<Record>)
    requires ValidChain(hash, rs)
    ensures forall i :: 0 <= i < |rs| ==> Valid(rs[i].event)
  {
    hide Valid;
    forall i | 0 <= i < |rs| ensures Valid(rs[i].event) { assert LinkedAt(hash, rs, i); }
  }

  function ToWire(rs: seq<Record>, c: Checkpoint): Wire
    requires c.createdAt.nano < 1_000_000_000
  {
    Wire(1, RecordsToWire(rs), CheckpointToWire(c))
  }

  function Export(hash: Hasher, rs: seq<Record>, c: Checkpoint): Option<string> {
    if !Exportable(hash, rs, c) then None else Some(Print(WireJson(ToWire(rs, c))))
  }

  method MarshalExport(hash: Hasher, records: seq<Record>, c: Checkpoint) returns (r: Option<string>)
    ensures r == Export(hash, records, c)
  {
    hide ValidPayload, Valid, EventToWire, CheckpointToWire, WireJson, Print, PayloadMembers, ValidChain, Verdict;
    VerdictIsValidity(hash, records);
    if records == [] { return None; }
    var verdict := VerifyChain(hash, records);
    if verdict.Some? { return None; }
    var last := records[|records| - 1];
    if c.sequence != last.sequence || c.headHash != last.eventHash || |c.signature| != SIGNATURE_SIZE { return None; }
    if Payload(c).None? { return None; }
    ChainEventsValid(hash, records);
    PayloadCivil(c);
    var ws: seq<WireRecord> := [];
    for i := 0 to |records|
      invariant ws == RecordsToWire(records[..i])
    {
      if Canonical(records[i].event).None? { return None; }
      ws := ws + [RecordToWire(records[i])];
      assert records[..i + 1][..i] == records[..i];
    }
    assert records[..|records|] == records;
    r := Some(Print(WireJson(Wire(1, ws, CheckpointToWire(c)))));
  }

  lemma PayloadCivil(c: Checkpoint)
    requires ValidPayload(c)
    ensures Civil(c.createdAt)
  {
  }

  // ---------- layouts ----------

  /** The signed statement is one JSON object of these five members. */
  lemma PayloadLayout(c: Checkpoint)
    requires ValidPayload(c)
    ensures Payload(c).Some? && Decode(Payload(c).value) == Some(Obj([
              Member("schema_version", Num(1)), Member("sequence", Num(c.sequence)),
              Member("chain_head_hash", Str(Hex(c.headHash))), Member("signing_key_id", Str(c.keyId)),
              Member("created_at", Str(FormatTime(c.createdAt)))]))
  {
    hide Print, Decode, Unescaped, Hex, FormatTime;
    PayloadUnescaped(c);
    DecodePrint(Obj(PayloadMembers(c)));
  }

  /** What is signed: the domain, a zero byte, and the statement. */
  lemma SignedMessage(sequence: Int64, headHash: Digest, createdAt: Time, signer: Signer)
    requires signer.initialized
    ensures var c := Checkpoint(1, sequence, headHash, signer.keyId, createdAt, []);
            var r := CreateCheckpoint(sequence, headHash, createdAt, signer, false);
            r.Some? ==> Payload(c).Some? && r.value.signature ==
                        signer.sign("compliantai:audit-checkpoint:v1" + [0 as char] + Payload(c).value)
  {
    hide Payload;
    assert SIGNING_DOMAIN == "compliantai:audit-checkpoint:v1" + [0 as char];
  }

  lemma RecordLayout(r: Record)
    requires Valid(r.event)
    ensures RecordJson(RecordToWire(r)) == Obj([
              Member("sequence", Num(r.sequence)), Member("event", ToJson(r.event)),
              Member("event_hash", Str(Hex(r.eventHash)))])
  {
    hide Valid, ToJson, Hex;
  }

  /** The export is one JSON object: the version, the records in order, and the checkpoint with its signature. */
  lemma EnvelopeLayout(rs: seq<Record>, c: Checkpoint)
    requires Civil(c.createdAt)
    ensures WireJson(ToWire(rs, c)) == Obj([
              Member("schema_version", Num(1)), Member("records", Arr(RecordsJson(RecordsToWire(rs)))),
              Member("checkpoint", Obj([
                Member("schema_version", Num(c.schemaVersion)), Member("sequence", Num(c.sequence)),
                Member("chain_head_hash", Str(Hex(c.headHash))), Member("signing_key_id", Str(c.keyId)),
                Member("created_at", Str(FormatTime(c.createdAt))), Member("signature", Str(Base64(c.signature)))]))])
  {
    hide Hex, FormatTime, Base64, RecordsJson, RecordsToWire;
  }
}
