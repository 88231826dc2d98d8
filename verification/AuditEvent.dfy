/** Content-free audit events: validation, the canonical JSON that is hashed, and its strict decoding. */
module AuditEvent {
  import opened Common
  import opened Sorting
  import opened Text
  import opened Json
  import Patterns

  const ZERO_BYTES: seq<Byte> := [0, 0, 0, 0, 0, 0, 0, 0, 0, 0, 0, 0, 0, 0, 0, 0,
                                  0, 0, 0, 0, 0, 0, 0, 0, 0, 0, 0, 0, 0, 0, 0, 0]

  type Digest = d: seq<Byte> | |d| == 32 witness ZERO_BYTES

  const ZERO: Digest := ZERO_BYTES

  datatype Event = Event(
    schemaVersion: Int64, eventId: string, runId: string, eventType: string, occurredAt: Time, principalId: string,
    authMethod: string, oidcIssuerHash: Option<Digest>, policyVersionHash: Digest, decision: string,
    reasonCodes: seq<string>, requestedModel: string, resolvedBackend: string, hmacKeyId: string,
    requestHmac: Digest, responseHmac: Option<Digest>, requestBytes: Int64, responseBytes: Option<Int64>,
    piiCategories: seq<string>, piiCounts: map<string, Int64>, healthCategories: seq<string>,
    secretCategories: seq<string>,
    detectorHash: Digest, inputTokens: Option<Int64>, outputTokens: Option<Int64>, reservedCost: Option<Int64>,
    actualCost: Option<Int64>, status: string, errorCode: Option<string>, previousHash: Digest,
    softwareVersion: string, configHash: Digest)

  // ---------- validation ----------

  const MAX_CODES := 64

  predicate ValidEventState(eventType: string, decision: string, status: string) {
    || (eventType == "run_started" && decision == "allow" && status == "started")
    || (eventType == "run_completed" && decision == "allow" && status == "completed")
    || (eventType == "run_failed" && decision == "allow" && status == "failed")
    || (eventType == "run_denied" && decision == "deny" && status == "denied")
  }

  predicate ValidAuthEvidence(authMethod: string, issuer: Option<Digest>) {
    || (authMethod == "oidc" && issuer.Some? && issuer.value != ZERO)
    || ((authMethod == "api_key" || authMethod == "workload") && issuer.None?)
  }

  predicate ValidCodeSet(values: seq<string>) {
    |values| <= MAX_CODES && (forall i :: 0 <= i < |values| ==> Patterns.IsCode(values[i])) && Distinct(Itself, values)
  }

  method CheckCodeSet(values: seq<string>) returns (ok: bool)
    ensures ok <==> ValidCodeSet(values)
  {
    if |values| > MAX_CODES { return false; }
    var seen: set<string> := {};
    for i := 0 to |values|
      invariant seen == set j | 0 <= j < i :: values[j]
      invariant (forall j :: 0 <= j < i ==> Patterns.IsCode(values[j])) && Distinct(Itself, values[..i])
    {
      if !Patterns.IsCode(values[i]) { return false; }
      if values[i] in seen {
        ghost var j :| 0 <= j < i && values[j] == values[i];
        assert Itself(values[j]) == Itself(values[i]);
        return false;
      }
      seen := seen + {values[i]};
    }
    assert values[..|values|] == values;
    ok := true;
  }

  predicate ValidCountMap(counts: map<string, Int64>) {
    |counts| <= MAX_CODES && forall key :: key in counts ==> Patterns.IsCode(key) && counts[key] >= 0
  }

  predicate NonNegative(x: Option<Int64>) { x.Some? ==> x.value >= 0 }

  predicate ValidTime(t: Time) { Civil(t) && 1 <= t.year && t != Time(1, 1, 1, 0, 0, 0, 0) && t.nano % 1000 == 0 }

  predicate Valid(e: Event) {
    && e.schemaVersion == 1
    && Patterns.IsUuid(e.eventId) && Patterns.IsUuid(e.runId) && Patterns.IsUuid(e.principalId)
    && ValidTime(e.occurredAt)
    && ValidEventState(e.eventType, e.decision, e.status)
    && ValidAuthEvidence(e.authMethod, e.oidcIssuerHash)
    && Patterns.IsIdentifier(e.requestedModel) && Patterns.IsIdentifier(e.resolvedBackend)
    && Patterns.IsIdentifier(e.hmacKeyId) && Patterns.IsIdentifier(e.softwareVersion)
    && e.policyVersionHash != ZERO && e.requestHmac != ZERO && e.detectorHash != ZERO && e.configHash != ZERO
    && e.requestBytes >= 0
    && NonNegative(e.responseBytes) && NonNegative(e.inputTokens) && NonNegative(e.outputTokens)
    && NonNegative(e.reservedCost) && NonNegative(e.actualCost)
    && (e.responseHmac.Some? ==> e.responseHmac.value != ZERO)
    && (e.errorCode.Some? ==> Patterns.IsCode(e.errorCode.value))
    && ValidCodeSet(e.reasonCodes) && ValidCodeSet(e.piiCategories)
    && ValidCodeSet(e.healthCategories) && ValidCodeSet(e.secretCategories)
    && ValidCountMap(e.piiCounts)
  }

  // ---------- the wire record ----------

  function OptNum(x: Option<Int64>): Json { if x.None? then Null else Num(x.value) }

  function OptStr(x: Option<string>): Json { if x.None? then Null else Str(x.value) }

  function HexStr(d: Digest): Json { Str(Hex(d)) }

  function OptHex(d: Option<Digest>): Json { if d.None? then Null else HexStr(d.value) }

  function Strs(xs: seq<string>): seq<Json> { if xs == [] then [] else [Str(xs[0])] + Strs(xs[1..]) }

  function List(xs: seq<string>): Json { Arr(Strs(xs)) }

  predicate IsMin(k: string, s: set<string>) { k in s && forall j :: j in s ==> j == k || Less(k, j) }

  lemma MinExists(s: set<string>)
    requires s != {}
    ensures exists k :: IsMin(k, s)
  {
    var x :| x in s;
    if s == {x} {
      assert IsMin(x, s);
    } else {
      var rest := s - {x};
      assert s == rest + {x};
      assert rest != {};
      MinExists(rest);
      var k :| IsMin(k, rest);
      LessTotal(k, x);
      if Less(k, x) {
        assert IsMin(k, s);
      } else {
        forall j | j in s ensures j == x || Less(x, j) { if j != x && j != k { LessTransitive(x, k, j); } }
        assert IsMin(x, s);
      }
    }
  }

  lemma MinUnique(s: set<string>)
    ensures forall k, k' :: IsMin(k, s) && IsMin(k', s) ==> k == k'
  {
    forall k, k' | IsMin(k, s) && IsMin(k', s) ensures k == k' {
      if k != k' {
        LessTransitive(k, k', k);
        LessIrreflexive(k);
        assert false;
      }
    }
  }

  /** The keys of a JSON object, in the order in which the encoder writes them. */
  function SortedKeys(s: set<string>): seq<string> {
    if s == {} then []
    else
      MinExists(s);
      MinUnique(s);
      var k :| IsMin(k, s);
      [k] + SortedKeys(s - {k})
  }

  function Entries(keys: seq<string>, m: map<string, Int64>): seq<Member>
    requires forall k :: k in keys ==> k in m
  {
    if keys == [] then [] else [Member(keys[0], Num(m[keys[0]]))] + Entries(keys[1..], m)
  }

  lemma {:induction false} SortedKeysMembers(s: set<string>)
    ensures forall k :: k in SortedKeys(s) <==> k in s
  {
    if s != {} {
      MinExists(s);
      MinUnique(s);
      var k :| IsMin(k, s);
      SortedKeysMembers(s - {k});
    }
  }

  function CountsJson(m: map<string, Int64>): Json {
    SortedKeysMembers(m.Keys);
    Obj(Entries(SortedKeys(m.Keys), m))
  }

  const KEYS0 := ["schema_version", "event_id", "run_id", "event_type", "occurred_at", "principal_id", "auth_method",
                  "oidc_issuer_hash"]
  const KEYS1 := ["policy_version_hash", "decision", "decision_reason_codes", "requested_model", "resolved_backend",
                  "content_hmac_key_id", "request_hmac", "response_hmac"]
  const KEYS2 := ["request_bytes", "response_bytes", "pii_categories", "pii_match_counts",
                  "health_indicator_categories", "secret_categories", "detector_bundle_hash", "input_tokens"]
  const KEYS3 := ["output_tokens", "reserved_cost_micros", "actual_cost_micros", "status", "error_code",
                  "previous_event_hash", "software_version", "config_hash"]
  const KEYS := KEYS0 + KEYS1 + KEYS2 + KEYS3

  function Sorted(xs: seq<string>): seq<string> { Sort(Itself, xs) }

  // The wire record in field order, in four runs of eight; code lists are sorted copies.

  function Values0(e: Event): (v: seq<Json>)
    requires e.occurredAt.nano < 1_000_000_000
    ensures |v| == 8
  {
    [Num(e.schemaVersion), Str(e.eventId), Str(e.runId), Str(e.eventType),
     Str(FormatTime(e.occurredAt)), Str(e.principalId), Str(e.authMethod), OptHex(e.oidcIssuerHash)]
  }

  function Values1(e: Event): (v: seq<Json>)
    ensures |v| == 8
  {
    [HexStr(e.policyVersionHash), Str(e.decision), List(Sorted(e.reasonCodes)), Str(e.requestedModel),
     Str(e.resolvedBackend), Str(e.hmacKeyId), HexStr(e.requestHmac), OptHex(e.responseHmac)]
  }

  function Values2(e: Event): (v: seq<Json>)
    ensures |v| == 8
  {
    [Num(e.requestBytes), OptNum(e.responseBytes), List(Sorted(e.piiCategories)), CountsJson(e.piiCounts),
     List(Sorted(e.healthCategories)), List(Sorted(e.secretCategories)), HexStr(e.detectorHash), OptNum(e.inputTokens)]
  }

  function Values3(e: Event): (v: seq<Json>)
    ensures |v| == 8
  {
    [OptNum(e.outputTokens), OptNum(e.reservedCost), OptNum(e.actualCost), Str(e.status),
     OptStr(e.errorCode), HexStr(e.previousHash), Str(e.softwareVersion), HexStr(e.configHash)]
  }

  function Values(e: Event): (v: seq<Json>)
    requires e.occurredAt.nano < 1_000_000_000
    ensures |v| == 32
  {
    Values0(e) + Values1(e) + Values2(e) + Values3(e)
  }

  function Zip(keys: seq<string>, values: seq<Json>): (ms: seq<Member>)
    requires |keys| == |values|
    ensures |ms| == |keys| && forall i :: 0 <= i < |ms| ==> ms[i] == Member(keys[i], values[i])
  {
    if keys == [] then [] else [Member(keys[0], values[0])] + Zip(keys[1..], values[1..])
  }

  function ToJson(e: Event): Json
    requires e.occurredAt.nano < 1_000_000_000
  {
    Obj(Zip(KEYS, Values(e)))
  }

  /** The bytes that are hashed and exported; an invalid event has none. */
  function Canonical(e: Event): Option<string> {
    if Valid(e) then Some(Print(ToJson(e))) else None
  }

  // ---------- decoding ----------

  function AsStr(j: Json): Option<string> { if j.Str? then Some(j.s) else None }

  function AsNum(j: Json): Option<Int64> {
    if j.Num? && -0x8000_0000_0000_0000 <= j.n <= 0x7FFF_FFFF_FFFF_FFFF then Some(j.n) else None
  }

  function AsOptNum(j: Json): Option<Option<Int64>> {
    if j.Null? then Some(None)
    else
      var n :- AsNum(j);
      Some(Some(n))
  }

  function AsOptStr(j: Json): Option<Option<string>> {
    if j.Null? then Some(None) else if j.Str? then Some(Some(j.s)) else None
  }

  function DigestFromHex(s: string): Option<Digest> {
    if |s| != 64 then None
    else
      var d :- Unhex(s);
      Some(d)
  }

  function AsDigest(j: Json): Option<Digest> { if j.Str? then DigestFromHex(j.s) else None }

  function AsOptDigest(j: Json): Option<Option<Digest>> {
    if j.Null? then Some(None)
    else
      var d :- AsDigest(j);
      Some(Some(d))
  }

  function AsStrs(items: seq<Json>): Option<seq<string>> {
    if items == [] then Some([])
    else
      var first :- AsStr(items[0]);
      var rest :- AsStrs(items[1..]);
      Some([first] + rest)
  }

  function AsList(j: Json): Option<seq<string>> { if j.Arr? then AsStrs(j.items) else None }

  function AsEntries(ms: seq<Member>): Option<map<string, Int64>> {
    if ms == [] then Some(map[])
    else
      var n :- AsNum(ms[0].value);
      var rest :- AsEntries(ms[1..]);
      Some(rest[ms[0].key := n])
  }

  function AsCounts(j: Json): Option<map<string, Int64>> { if j.Obj? then AsEntries(j.members) else None }

  function AsTime(j: Json): Option<Time> { if j.Str? then ParseTime(j.s) else None }

  datatype Run0 = Run0(schemaVersion: Int64, eventId: string, runId: string, eventType: string, occurredAt: Time,
                       principalId: string, authMethod: string, oidcIssuerHash: Option<Digest>)

  function ReadRun0(v: seq<Json>): Option<Run0>
    requires |v| == 8
  {
    var x0 :- AsNum(v[0]);
    var x1 :- AsStr(v[1]);
    var x2 :- AsStr(v[2]);
    var x3 :- AsStr(v[3]);
    var x4 :- AsTime(v[4]);
    var x5 :- AsStr(v[5]);
    var x6 :- AsStr(v[6]);
    var x7 :- AsOptDigest(v[7]);
    Some(Run0(x0, x1, x2, x3, x4, x5, x6, x7))
  }

  datatype Run1 = Run1(policyVersionHash: Digest, decision: string, reasonCodes: seq<string>, requestedModel: string,
                       resolvedBackend: string, hmacKeyId: string, requestHmac: Digest, responseHmac: Option<Digest>)

  function ReadRun1(v: seq<Json>): Option<Run1>
    requires |v| == 8
  {
    var x0 :- AsDigest(v[0]);
    var x1 :- AsStr(v[1]);
    var x2 :- AsList(v[2]);
    var x3 :- AsStr(v[3]);
    var x4 :- AsStr(v[4]);
    var x5 :- AsStr(v[5]);
    var x6 :- AsDigest(v[6]);
    var x7 :- AsOptDigest(v[7]);
    Some(Run1(x0, x1, x2, x3, x4, x5, x6, x7))
  }

  datatype Run2 = Run2(requestBytes: Int64, responseBytes: Option<Int64>, piiCategories: seq<string>,
                       piiCounts: map<string, Int64>, healthCategories: seq<string>, secretCategories: seq<string>,
                       detectorHash: Digest, inputTokens: Option<Int64>)

  function ReadRun2(v: seq<Json>): Option<Run2>
    requires |v| == 8
  {
    var x0 :- AsNum(v[0]);
    var x1 :- AsOptNum(v[1]);
    var x2 :- AsList(v[2]);
    var x3 :- AsCounts(v[3]);
    var x4 :- AsList(v[4]);
    var x5 :- AsList(v[5]);
    var x6 :- AsDigest(v[6]);
    var x7 :- AsOptNum(v[7]);
    Some(Run2(x0, x1, x2, x3, x4, x5, x6, x7))
  }

  datatype Run3 = Run3(outputTokens: Option<Int64>, reservedCost: Option<Int64>, actualCost: Option<Int64>,
                       status: string, errorCode: Option<string>, previousHash: Digest, softwareVersion: string,
                       configHash: Digest)

  function ReadRun3(v: seq<Json>): Option<Run3>
    requires |v| == 8
  {
    var x0 :- AsOptNum(v[0]);
    var x1 :- AsOptNum(v[1]);
    var x2 :- AsOptNum(v[2]);
    var x3 :- AsStr(v[3]);
    var x4 :- AsOptStr(v[4]);
    var x5 :- AsDigest(v[5]);
    var x6 :- AsStr(v[6]);
    var x7 :- AsDigest(v[7]);
    Some(Run3(x0, x1, x2, x3, x4, x5, x6, x7))
  }

  function FromValues(v: seq<Json>): Option<Event>
    requires |v| == 32
  {
    var a :- ReadRun0(v[..8]);
    var b :- ReadRun1(v[8..16]);
    var c :- ReadRun2(v[16..24]);
    var d :- ReadRun3(v[24..]);
    Some(Event(a.schemaVersion, a.eventId, a.runId, a.eventType, a.occurredAt, a.principalId, a.authMethod,
               a.oidcIssuerHash,
               b.policyVersionHash, b.decision, b.reasonCodes, b.requestedModel, b.resolvedBackend, b.hmacKeyId,
               b.requestHmac, b.responseHmac,
               c.requestBytes, c.responseBytes, c.piiCategories, c.piiCounts, c.healthCategories, c.secretCategories,
               c.detectorHash, c.inputTokens,
               d.outputTokens, d.reservedCost, d.actualCost, d.status, d.errorCode, d.previousHash, d.softwareVersion,
               d.configHash))
  }

  function MemberValues(ms: seq<Member>): (v: seq<Json>)
    ensures |v| == |ms| && forall i :: 0 <= i < |ms| ==> v[i] == ms[i].value
  {
    if ms == [] then [] else [ms[0].value] + MemberValues(ms[1..])
  }

  function FromJson(j: Json): Option<Event> {
    if j.Obj? && |j.members| == 32 && (forall i :: 0 <= i < 32 ==> j.members[i].key == KEYS[i])
    then FromValues(MemberValues(j.members))
    else None
  }

  /** Accepts exactly the text that encoding the decoded event gives back. */
  function EventFromCanonical(text: string): Option<Event> {
    var j :- Decode(text);
    var e :- FromJson(j);
    if Canonical(e) == Some(text) then Some(e) else None
  }
}
