/** The canonical encoding of audit events loses nothing but the order of code lists. */
module AuditCanonical {
  import opened Common
  import opened Sorting
  import opened Chars
  import opened Text
  import opened Json
  import opened AuditEvent
  import Patterns

  // ---------- no string of a valid event needs escaping ----------

  lemma UuidPlain(s: string)
    requires Patterns.IsUuid(s)
    ensures PlainText(s)
  {
    forall i | 0 <= i < |s| ensures Plain(s[i]) { assert Patterns.UuidChar(i, s[i]); }
  }

  lemma CodePlain(s: string)
    requires Patterns.IsCode(s)
    ensures PlainText(s)
  {
  }

  lemma IdentifierPlain(s: string)
    requires Patterns.IsIdentifier(s)
    ensures PlainText(s)
  {
    forall i | 0 <= i < |s| ensures Plain(s[i]) { assert Patterns.IdentifierChar(s[i]); }
  }

  lemma HexPlain(d: Digest)
    ensures PlainText(Hex(d))
  {
  }

  lemma TimePlain(t: Time)
    requires t.nano < 1_000_000_000
    ensures PlainText(FormatTime(t))
  {
    hide Pad, Fraction;
    Powers();
    forall i | 0 <= i < 19 ensures Plain(Seconds(t)[i]) {
      var s := Seconds(t);
      assert s[i] in "-T:" || Digit(s[i]);
    }
    assert AllDigits(Fraction(t.nano, 9));
  }

  lemma {:induction false} ListPlain(xs: seq<string>)
    requires forall i :: 0 <= i < |xs| ==> Patterns.IsCode(xs[i])
    ensures Unescaped(List(xs))
  {
    if xs != [] {
      CodePlain(xs[0]);
      ListPlain(xs[1..]);
      assert forall i :: 1 <= i < |Strs(xs)| ==> Strs(xs)[i] == Strs(xs[1..])[i - 1];
    }
  }

  lemma SortedListPlain(xs: seq<string>)
    requires ValidCodeSet(xs)
    ensures Unescaped(List(Sorted(xs)))
  {
    SortMembers(Itself, xs);
    forall i | 0 <= i < |Sorted(xs)| ensures Patterns.IsCode(Sorted(xs)[i]) {
      assert Sorted(xs)[i] in multiset(Sorted(xs)) && Sorted(xs)[i] in multiset(xs);
    }
    ListPlain(Sorted(xs));
  }

  lemma {:induction false} EntriesPlain(keys: seq<string>, m: map<string, Int64>)
    requires forall k :: k in keys ==> k in m && Patterns.IsCode(k)
    ensures forall i :: 0 <= i < |Entries(keys, m)| ==>
            PlainText(Entries(keys, m)[i].key) && Unescaped(Entries(keys, m)[i].value)
  {
    if keys != [] {
      CodePlain(keys[0]);
      EntriesPlain(keys[1..], m);
    }
  }

  lemma Values0Plain(e: Event)
    requires Valid(e)
    ensures forall i :: 0 <= i < 8 ==> Unescaped(Values0(e)[i])
  {
    hide Patterns.IsUuid, Patterns.IsIdentifier, Patterns.IsCode, FormatTime, Hex, List, Sorted, ValidCodeSet,
         PlainText, CountsJson;
    StatePlain(e);
    UuidPlain(e.eventId);
    UuidPlain(e.runId);
    TimePlain(e.occurredAt);
    UuidPlain(e.principalId);
    if e.oidcIssuerHash.Some? { HexPlain(e.oidcIssuerHash.value); }
  }

  lemma Values1Plain(e: Event)
    requires Valid(e)
    ensures forall i :: 0 <= i < 8 ==> Unescaped(Values1(e)[i])
  {
    hide Patterns.IsUuid, Patterns.IsIdentifier, Patterns.IsCode, FormatTime, Hex, List, Sorted, ValidCodeSet,
         PlainText, CountsJson;
    StatePlain(e);
    HexPlain(e.policyVersionHash);
    SortedListPlain(e.reasonCodes);
    IdentifierPlain(e.requestedModel);
    IdentifierPlain(e.resolvedBackend);
    IdentifierPlain(e.hmacKeyId);
    HexPlain(e.requestHmac);
    if e.responseHmac.Some? { HexPlain(e.responseHmac.value); }
  }

  lemma Values2Plain(e: Event)
    requires Valid(e)
    ensures forall i :: 0 <= i < 8 ==> Unescaped(Values2(e)[i])
  {
    hide Patterns.IsUuid, Patterns.IsIdentifier, Patterns.IsCode, FormatTime, Hex, List, Sorted, ValidCodeSet,
         PlainText, CountsJson;
    SortedListPlain(e.piiCategories);
    CountsPlain(e.piiCounts);
    SortedListPlain(e.healthCategories);
    SortedListPlain(e.secretCategories);
    HexPlain(e.detectorHash);
  }

  lemma Values3Plain(e: Event)
    requires Valid(e)
    ensures forall i :: 0 <= i < 8 ==> Unescaped(Values3(e)[i])
  {
    hide Patterns.IsUuid, Patterns.IsIdentifier, Patterns.IsCode, FormatTime, Hex, List, Sorted, ValidCodeSet,
         PlainText, CountsJson;
    StatePlain(e);
    if e.errorCode.Some? { CodePlain(e.errorCode.value); }
    HexPlain(e.previousHash);
    IdentifierPlain(e.softwareVersion);
    HexPlain(e.configHash);
  }

  lemma ValuesPlain(e: Event)
    requires Valid(e)
    ensures forall i :: 0 <= i < 32 ==> Unescaped(Values(e)[i])
  {
    hide Valid, Values0, Values1, Values2, Values3, Unescaped;
    ValidCivil(e);
    Values0Plain(e);
    Values1Plain(e);
    Values2Plain(e);
    Values3Plain(e);
    forall i | 0 <= i < 32 ensures Unescaped(Values(e)[i]) {
      assert Values(e)[i] == if i < 8 then Values0(e)[i] else if i < 16 then Values1(e)[i - 8]
                             else if i < 24 then Values2(e)[i - 16] else Values3(e)[i - 24];
    }
  }

  lemma ValidCivil(e: Event)
    requires Valid(e)
    ensures Civil(e.occurredAt)
  {
  }

  lemma StatePlain(e: Event)
    requires ValidEventState(e.eventType, e.decision, e.status) && ValidAuthEvidence(e.authMethod, e.oidcIssuerHash)
    ensures PlainText(e.eventType) && PlainText(e.decision) && PlainText(e.status) && PlainText(e.authMethod)
  {
  }

  lemma CountsPlain(m: map<string, Int64>)
    requires ValidCountMap(m)
    ensures Unescaped(CountsJson(m))
  {
    SortedKeysMembers(m.Keys);
    EntriesPlain(SortedKeys(m.Keys), m);
  }

  lemma Keys0PlainLow(i: nat)
    requires 0 <= i < 4
    ensures PlainText(KEYS0[i])
  {
  }

  lemma Keys0PlainHigh(i: nat)
    requires 4 <= i < 8
    ensures PlainText(KEYS0[i])
  {
  }

  lemma Keys1PlainLow(i: nat)
    requires 0 <= i < 4
    ensures PlainText(KEYS1[i])
  {
  }

  lemma Keys1PlainHigh(i: nat)
    requires 4 <= i < 8
    ensures PlainText(KEYS1[i])
  {
  }

  lemma Keys2PlainLow(i: nat)
    requires 0 <= i < 4
    ensures PlainText(KEYS2[i])
  {
  }

  lemma Keys2PlainHigh(i: nat)
    requires 4 <= i < 8
    ensures PlainText(KEYS2[i])
  {
  }

  lemma Keys3PlainLow(i: nat)
    requires 0 <= i < 4
    ensures PlainText(KEYS3[i])
  {
  }

  lemma Keys3PlainHigh(i: nat)
    requires 4 <= i < 8
    ensures PlainText(KEYS3[i])
  {
  }

  lemma KeyPlain(i: nat)
    requires i < 32
    ensures PlainText(KEYS[i])
  {
    hide PlainText;
    if i < 4 { Keys0PlainLow(i); }
    else if i < 8 { Keys0PlainHigh(i); }
    else if i < 12 { Keys1PlainLow(i - 8); }
    else if i < 16 { Keys1PlainHigh(i - 8); }
    else if i < 20 { Keys2PlainLow(i - 16); }
    else if i < 24 { Keys2PlainHigh(i - 16); }
    else if i < 28 { Keys3PlainLow(i - 24); }
    else { Keys3PlainHigh(i - 24); }
  }

  // ---------- each field is read back ----------

  lemma DigestRoundTrip(d: Digest)
    ensures AsDigest(HexStr(d)) == Some(d) && AsOptDigest(HexStr(d)) == Some(Some(d))
  {
    HexRoundTrip(d);
  }

  lemma {:induction false} ListRoundTrip(xs: seq<string>)
    ensures AsList(List(xs)) == Some(xs)
  {
    if xs != [] {
      ListRoundTrip(xs[1..]);
      assert Strs(xs)[1..] == Strs(xs[1..]);
      assert [xs[0]] + xs[1..] == xs;
    }
  }

  lemma {:induction false} EntriesRoundTrip(keys: seq<string>, m: map<string, Int64>)
    requires forall k :: k in keys ==> k in m
    ensures var r := AsEntries(Entries(keys, m));
            r.Some? && (forall k :: k in r.value <==> k in keys) && (forall k :: k in keys ==> r.value[k] == m[k])
  {
    if keys != [] {
      EntriesRoundTrip(keys[1..], m);
      assert Entries(keys, m)[1..] == Entries(keys[1..], m);
      assert keys == [keys[0]] + keys[1..];
    }
  }

  lemma CountsRoundTrip(m: map<string, Int64>)
    ensures AsCounts(CountsJson(m)) == Some(m)
  {
    SortedKeysMembers(m.Keys);
    EntriesRoundTrip(SortedKeys(m.Keys), m);
    assert AsCounts(CountsJson(m)).value == m;
  }

  /** The event with its code lists in sorted order. */
  function SortLists(e: Event): Event {
    e.(reasonCodes := Sorted(e.reasonCodes), piiCategories := Sorted(e.piiCategories),
       healthCategories := Sorted(e.healthCategories), secretCategories := Sorted(e.secretCategories))
  }

  lemma Run0RoundTrip(e: Event)
    requires Civil(e.occurredAt)
    ensures ReadRun0(Values0(e)) == Some(Run0(e.schemaVersion, e.eventId, e.runId, e.eventType, e.occurredAt,
                                              e.principalId, e.authMethod, e.oidcIssuerHash))
  {
    hide List, Sorted, CountsJson, HexStr, FormatTime, AsList, AsCounts, AsDigest, ParseTime;
    TimeRoundTrip(e.occurredAt);
    if e.oidcIssuerHash.Some? { DigestRoundTrip(e.oidcIssuerHash.value); }
  }

  lemma Run1RoundTrip(e: Event)
    ensures ReadRun1(Values1(e)) == Some(Run1(e.policyVersionHash, e.decision, Sorted(e.reasonCodes), e.requestedModel,
                                              e.resolvedBackend, e.hmacKeyId, e.requestHmac, e.responseHmac))
  {
    hide List, Sorted, CountsJson, HexStr, FormatTime, AsList, AsCounts, AsDigest, ParseTime;
    DigestRoundTrip(e.policyVersionHash);
    ListRoundTrip(Sorted(e.reasonCodes));
    DigestRoundTrip(e.requestHmac);
    if e.responseHmac.Some? { DigestRoundTrip(e.responseHmac.value); }
  }

  lemma Run2RoundTrip(e: Event)
    ensures ReadRun2(Values2(e)) == Some(Run2(e.requestBytes, e.responseBytes, Sorted(e.piiCategories), e.piiCounts,
                                              Sorted(e.healthCategories), Sorted(e.secretCategories), e.detectorHash,
                                              e.inputTokens))
  {
    hide List, Sorted, CountsJson, HexStr, FormatTime, AsList, AsCounts, AsDigest, ParseTime;
    ListRoundTrip(Sorted(e.piiCategories));
    CountsRoundTrip(e.piiCounts);
    ListRoundTrip(Sorted(e.healthCategories));
    ListRoundTrip(Sorted(e.secretCategories));
    DigestRoundTrip(e.detectorHash);
  }

  lemma Run3RoundTrip(e: Event)
    ensures ReadRun3(Values3(e)) == Some(Run3(e.outputTokens, e.reservedCost, e.actualCost, e.status, e.errorCode,
                                              e.previousHash, e.softwareVersion, e.configHash))
  {
    hide List, Sorted, CountsJson, HexStr, FormatTime, AsList, AsCounts, AsDigest, ParseTime;
    DigestRoundTrip(e.previousHash);
    DigestRoundTrip(e.configHash);
  }

  lemma ValuesRoundTrip(e: Event)
    requires Civil(e.occurredAt)
    ensures FromValues(Values(e)) == Some(SortLists(e))
  {
    hide Values0, Values1, Values2, Values3, ReadRun0, ReadRun1, ReadRun2, ReadRun3, Sorted;
    Run0RoundTrip(e);
    Run1RoundTrip(e);
    Run2RoundTrip(e);
    Run3RoundTrip(e);
    var v := Values(e);
    assert v[..8] == Values0(e) && v[8..16] == Values1(e) && v[16..24] == Values2(e) && v[24..] == Values3(e);
  }

  lemma JsonRoundTrip(e: Event)
    requires Civil(e.occurredAt)
    ensures FromJson(ToJson(e)) == Some(SortLists(e))
  {
    hide Values, FromValues, SortLists;
    ValuesRoundTrip(e);
    assert MemberValues(Zip(KEYS, Values(e))) == Values(e);
  }

  lemma ToJsonPlain(e: Event)
    requires Valid(e)
    ensures Unescaped(ToJson(e))
  {
    hide Values, Valid;
    ValuesPlain(e);
    ValidCivil(e);
    forall i | 0 <= i < 32 ensures PlainText(KEYS[i]) { KeyPlain(i); }
  }

  // ---------- sorting the code lists changes nothing else ----------

  lemma SortedCodeSet(xs: seq<string>)
    requires ValidCodeSet(xs)
    ensures ValidCodeSet(Sorted(xs)) && Sorted(Sorted(xs)) == Sorted(xs)
  {
    SortMembers(Itself, xs);
    DistinctUnderPermutation(Itself, xs, Sorted(xs));
    forall i | 0 <= i < |Sorted(xs)| ensures Patterns.IsCode(Sorted(xs)[i]) {
      assert Sorted(xs)[i] in multiset(Sorted(xs)) && Sorted(xs)[i] in multiset(xs);
    }
    assert forall x :: x in Sorted(xs) <==> x in xs;
    SortCanonical(Itself, Sorted(xs), xs);
  }

  lemma SortListsKeepsCanonical(e: Event)
    requires Valid(e)
    ensures Valid(SortLists(e)) && Values(SortLists(e)) == Values(e) && Canonical(SortLists(e)) == Canonical(e)
  {
    hide Sorted, ValidCodeSet, List, CountsJson, HexStr, FormatTime, ValidEventState, ValidAuthEvidence,
         Patterns.IsUuid, Patterns.IsIdentifier, Patterns.IsCode, ValidCountMap, Print;
    SortedCodeSet(e.reasonCodes);
    SortedCodeSet(e.piiCategories);
    SortedCodeSet(e.healthCategories);
    SortedCodeSet(e.secretCategories);
  }

  // ---------- the theorems ----------

  /** Decoding the canonical text of an event gives that event back with sorted code lists. */
  lemma CanonicalRoundTrip(e: Event)
    requires Valid(e)
    ensures EventFromCanonical(Canonical(e).value) == Some(SortLists(e))
  {
    hide Valid, SortLists, ToJson, FromJson, Print, Decode;
    ValidCivil(e);
    ToJsonPlain(e);
    DecodePrint(ToJson(e));
    JsonRoundTrip(e);
    SortListsKeepsCanonical(e);
  }

  /**
   The decoder accepts a text exactly when it is the canonical text of some event, and then of the event it returns.
   */
  lemma OnlyCanonicalAccepted(text: string)
    ensures EventFromCanonical(text).Some? <==> exists e :: Canonical(e) == Some(text)
    ensures EventFromCanonical(text).Some? ==> Canonical(EventFromCanonical(text).value) == Some(text)
  {
    hide FromJson, Decode, Print, Valid, ToJson;
    if exists e :: Canonical(e) == Some(text) {
      var e :| Canonical(e) == Some(text);
      CanonicalRoundTrip(e);
    }
  }

  /** Two events that differ at most in the order of their code lists. */
  predicate SameUpToOrder(e: Event, f: Event) {
    && multiset(e.reasonCodes) == multiset(f.reasonCodes) && multiset(e.piiCategories) == multiset(f.piiCategories)
    && multiset(e.healthCategories) == multiset(f.healthCategories)
       && multiset(e.secretCategories) == multiset(f.secretCategories)
    && f == e.(reasonCodes := f.reasonCodes, piiCategories := f.piiCategories,
               healthCategories := f.healthCategories, secretCategories := f.secretCategories)
  }

  lemma SortedIffPermutation(xs: seq<string>, ys: seq<string>)
    requires ValidCodeSet(xs) && ValidCodeSet(ys)
    ensures Sorted(xs) == Sorted(ys) <==> multiset(xs) == multiset(ys)
  {
    SortMembers(Itself, xs);
    SortMembers(Itself, ys);
    if multiset(xs) == multiset(ys) {
      assert forall x :: (x in xs <==> x in multiset(xs)) && (x in ys <==> x in multiset(ys));
      SortCanonical(Itself, xs, ys);
    }
  }

  lemma SortListsIffSame(e: Event, f: Event)
    requires Valid(e) && Valid(f)
    ensures SortLists(e) == SortLists(f) <==> SameUpToOrder(e, f)
  {
    hide Sorted, ValidCodeSet;
    SortedIffPermutation(e.reasonCodes, f.reasonCodes);
    SortedIffPermutation(e.piiCategories, f.piiCategories);
    SortedIffPermutation(e.healthCategories, f.healthCategories);
    SortedIffPermutation(e.secretCategories, f.secretCategories);
  }

  /** Canonical texts coincide exactly for events that are the same up to the order of their code lists. */
  lemma CanonicalInjective(e: Event, f: Event)
    requires Valid(e) && Valid(f)
    ensures Canonical(e) == Canonical(f) <==> SameUpToOrder(e, f)
  {
    hide Valid, SortLists, EventFromCanonical, SameUpToOrder, ToJson, Print;
    CanonicalRoundTrip(e);
    CanonicalRoundTrip(f);
    SortListsKeepsCanonical(e);
    SortListsKeepsCanonical(f);
    SortListsIffSame(e, f);
  }

  // ---------- the layout on the wire ----------

  /** Member `i` of the decoded text carries that name and that value. */
  predicate Carries(j: Json, i: nat, key: string, value: Json) {
    j.Obj? && i < |j.members| && j.members[i] == Member(key, value)
  }

  lemma Layout0(e: Event)
    requires Valid(e)
    ensures Carries(ToJson(e), 0, "schema_version", Num(1))
    ensures Carries(ToJson(e), 1, "event_id", Str(e.eventId))
    ensures Carries(ToJson(e), 2, "run_id", Str(e.runId))
    ensures Carries(ToJson(e), 3, "event_type", Str(e.eventType))
    ensures Carries(ToJson(e), 4, "occurred_at", Str(FormatTime(e.occurredAt)))
    ensures Carries(ToJson(e), 5, "principal_id", Str(e.principalId))
    ensures Carries(ToJson(e), 6, "auth_method", Str(e.authMethod))
    ensures Carries(ToJson(e), 7, "oidc_issuer_hash", OptHex(e.oidcIssuerHash))
  {
    hide Valid, Carries, Sorted, List, CountsJson, HexStr, FormatTime, OptHex, OptNum, OptStr, ToJson;
    ValidCivil(e);
    ValidVersion(e);
    Part0(e, 0);
    Part0(e, 1);
    Part0(e, 2);
    Part0(e, 3);
    Part0(e, 4);
    Part0(e, 5);
    Part0(e, 6);
    Part0(e, 7);
  }

  lemma Part0(e: Event, k: nat)
    requires Valid(e) && k < 8
    ensures Carries(ToJson(e), 0 + k, KEYS0[k], Values0(e)[k])
  {
    hide Valid, Values0, Values1, Values2, Values3, KEYS0, KEYS1, KEYS2, KEYS3;
    ValidCivil(e);
    KeyRuns();
    assert Values(e)[0 + k] == Values0(e)[k] && KEYS[0 + k] == KEYS0[k];
  }

  lemma Layout1(e: Event)
    requires Valid(e)
    ensures Carries(ToJson(e), 8, "policy_version_hash", HexStr(e.policyVersionHash))
    ensures Carries(ToJson(e), 9, "decision", Str(e.decision))
    ensures Carries(ToJson(e), 10, "decision_reason_codes", List(Sorted(e.reasonCodes)))
    ensures Carries(ToJson(e), 11, "requested_model", Str(e.requestedModel))
    ensures Carries(ToJson(e), 12, "resolved_backend", Str(e.resolvedBackend))
    ensures Carries(ToJson(e), 13, "content_hmac_key_id", Str(e.hmacKeyId))
    ensures Carries(ToJson(e), 14, "request_hmac", HexStr(e.requestHmac))
    ensures Carries(ToJson(e), 15, "response_hmac", OptHex(e.responseHmac))
  {
    hide Valid, Carries, Sorted, List, CountsJson, HexStr, FormatTime, OptHex, OptNum, OptStr, ToJson;
    ValidCivil(e);
    Part1(e, 0);
    Part1(e, 1);
    Part1(e, 2);
    Part1(e, 3);
    Part1(e, 4);
    Part1(e, 5);
    Part1(e, 6);
    Part1(e, 7);
  }

  lemma Part1(e: Event, k: nat)
    requires Valid(e) && k < 8
    ensures Carries(ToJson(e), 8 + k, KEYS1[k], Values1(e)[k])
  {
    hide Valid, Values0, Values1, Values2, Values3, KEYS0, KEYS1, KEYS2, KEYS3;
    ValidCivil(e);
    KeyRuns();
    assert Values(e)[8 + k] == Values1(e)[k] && KEYS[8 + k] == KEYS1[k];
  }

  lemma Layout2(e: Event)
    requires Valid(e)
    ensures Carries(ToJson(e), 16, "request_bytes", Num(e.requestBytes))
    ensures Carries(ToJson(e), 17, "response_bytes", OptNum(e.responseBytes))
    ensures Carries(ToJson(e), 18, "pii_categories", List(Sorted(e.piiCategories)))
    ensures Carries(ToJson(e), 19, "pii_match_counts", CountsJson(e.piiCounts))
    ensures Carries(ToJson(e), 20, "health_indicator_categories", List(Sorted(e.healthCategories)))
    ensures Carries(ToJson(e), 21, "secret_categories", List(Sorted(e.secretCategories)))
    ensures Carries(ToJson(e), 22, "detector_bundle_hash", HexStr(e.detectorHash))
    ensures Carries(ToJson(e), 23, "input_tokens", OptNum(e.inputTokens))
  {
    hide Valid, Carries, Sorted, List, CountsJson, HexStr, FormatTime, OptHex, OptNum, OptStr, ToJson;
    ValidCivil(e);
    Part2(e, 0);
    Part2(e, 1);
    Part2(e, 2);
    Part2(e, 3);
    Part2(e, 4);
    Part2(e, 5);
    Part2(e, 6);
    Part2(e, 7);
  }

  lemma Part2(e: Event, k: nat)
    requires Valid(e) && k < 8
    ensures Carries(ToJson(e), 16 + k, KEYS2[k], Values2(e)[k])
  {
    hide Valid, Values0, Values1, Values2, Values3, KEYS0, KEYS1, KEYS2, KEYS3;
    ValidCivil(e);
    KeyRuns();
    assert Values(e)[16 + k] == Values2(e)[k] && KEYS[16 + k] == KEYS2[k];
  }

  lemma Layout3(e: Event)
    requires Valid(e)
    ensures Carries(ToJson(e), 24, "output_tokens", OptNum(e.outputTokens))
    ensures Carries(ToJson(e), 25, "reserved_cost_micros", OptNum(e.reservedCost))
    ensures Carries(ToJson(e), 26, "actual_cost_micros", OptNum(e.actualCost))
    ensures Carries(ToJson(e), 27, "status", Str(e.status))
    ensures Carries(ToJson(e), 28, "error_code", OptStr(e.errorCode))
    ensures Carries(ToJson(e), 29, "previous_event_hash", HexStr(e.previousHash))
    ensures Carries(ToJson(e), 30, "software_version", Str(e.softwareVersion))
    ensures Carries(ToJson(e), 31, "config_hash", HexStr(e.configHash))
  {
    hide Valid, Carries, Sorted, List, CountsJson, HexStr, FormatTime, OptHex, OptNum, OptStr, ToJson;
    ValidCivil(e);
    Part3(e, 0);
    Part3(e, 1);
    Part3(e, 2);
    Part3(e, 3);
    Part3(e, 4);
    Part3(e, 5);
    Part3(e, 6);
    Part3(e, 7);
  }

  lemma Part3(e: Event, k: nat)
    requires Valid(e) && k < 8
    ensures Carries(ToJson(e), 24 + k, KEYS3[k], Values3(e)[k])
  {
    hide Valid, Values0, Values1, Values2, Values3, KEYS0, KEYS1, KEYS2, KEYS3;
    ValidCivil(e);
    KeyRuns();
    assert Values(e)[24 + k] == Values3(e)[k] && KEYS[24 + k] == KEYS3[k];
  }

  lemma KeyRuns()
    ensures |KEYS0| == |KEYS1| == |KEYS2| == |KEYS3| == 8
  {
  }

  lemma ValidVersion(e: Event)
    requires Valid(e)
    ensures e.schemaVersion == 1
  {
  }

  /**
   The text that is hashed is one JSON object of 32 members, in this order, under these names and with these values: the
   names are those of the export format, code lists are sorted, and absent values are null.
   */
  lemma CanonicalLayout(e: Event)
    requires Valid(e)
    ensures Canonical(e).Some? && Decode(Canonical(e).value).Some?
    ensures var j := Decode(Canonical(e).value).value;
            && j.Obj? && |j.members| == 32
            && Carries(j, 0, "schema_version", Num(1))
            && Carries(j, 1, "event_id", Str(e.eventId))
            && Carries(j, 2, "run_id", Str(e.runId))
            && Carries(j, 3, "event_type", Str(e.eventType))
            && Carries(j, 4, "occurred_at", Str(FormatTime(e.occurredAt)))
            && Carries(j, 5, "principal_id", Str(e.principalId))
            && Carries(j, 6, "auth_method", Str(e.authMethod))
            && Carries(j, 7, "oidc_issuer_hash", OptHex(e.oidcIssuerHash))
            && Carries(j, 8, "policy_version_hash", HexStr(e.policyVersionHash))
            && Carries(j, 9, "decision", Str(e.decision))
            && Carries(j, 10, "decision_reason_codes", List(Sorted(e.reasonCodes)))
            && Carries(j, 11, "requested_model", Str(e.requestedModel))
            && Carries(j, 12, "resolved_backend", Str(e.resolvedBackend))
            && Carries(j, 13, "content_hmac_key_id", Str(e.hmacKeyId))
            && Carries(j, 14, "request_hmac", HexStr(e.requestHmac))
            && Carries(j, 15, "response_hmac", OptHex(e.responseHmac))
            && Carries(j, 16, "request_bytes", Num(e.requestBytes))
            && Carries(j, 17, "response_bytes", OptNum(e.responseBytes))
            && Carries(j, 18, "pii_categories", List(Sorted(e.piiCategories)))
            && Carries(j, 19, "pii_match_counts", CountsJson(e.piiCounts))
            && Carries(j, 20, "health_indicator_categories", List(Sorted(e.healthCategories)))
            && Carries(j, 21, "secret_categories", List(Sorted(e.secretCategories)))
            && Carries(j, 22, "detector_bundle_hash", HexStr(e.detectorHash))
            && Carries(j, 23, "input_tokens", OptNum(e.inputTokens))
            && Carries(j, 24, "output_tokens", OptNum(e.outputTokens))
            && Carries(j, 25, "reserved_cost_micros", OptNum(e.reservedCost))
            && Carries(j, 26, "actual_cost_micros", OptNum(e.actualCost))
            && Carries(j, 27, "status", Str(e.status))
            && Carries(j, 28, "error_code", OptStr(e.errorCode))
            && Carries(j, 29, "previous_event_hash", HexStr(e.previousHash))
            && Carries(j, 30, "software_version", Str(e.softwareVersion))
            && Carries(j, 31, "config_hash", HexStr(e.configHash))
  {
    hide Valid, ToJson, Print, Decode, Carries, Sorted, List, CountsJson, HexStr, FormatTime, OptHex, OptNum, OptStr;
    ValidCivil(e);
    ToJsonPlain(e);
    DecodePrint(ToJson(e));
    ToJsonSize(e);
    Layout0(e);
    Layout1(e);
    Layout2(e);
    Layout3(e);
  }

  lemma ToJsonSize(e: Event)
    requires Valid(e)
    ensures ToJson(e).Obj? && |ToJson(e).members| == 32
  {
    hide Valid, Values0, Values1, Values2, Values3;
    ValidCivil(e);
  }

  /** The counts are written in ascending order of their names, each name once. */
  lemma {:induction false} SortedKeysStrict(s: set<string>)
    ensures Strict(Itself, SortedKeys(s))
  {
    if s != {} {
      MinExists(s);
      MinUnique(s);
      var k :| IsMin(k, s);
      SortedKeysStrict(s - {k});
      SortedKeysMembers(s - {k});
      var rest := SortedKeys(s - {k});
      forall i | 0 <= i < |rest| ensures Less(k, rest[i]) { assert rest[i] in rest && rest[i] in s; }
    }
  }

  lemma {:induction false} EntriesCarry(keys: seq<string>, m: map<string, Int64>)
    requires forall k :: k in keys ==> k in m
    ensures |Entries(keys, m)| == |keys|
    ensures forall i :: 0 <= i < |keys| ==> Entries(keys, m)[i] == Member(keys[i], Num(m[keys[i]]))
  {
    if keys != [] { EntriesCarry(keys[1..], m); }
  }
}
