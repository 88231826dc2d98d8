/**
 The authorization engine: canonical policy documents and default-deny evaluation in which denials take precedence.
 */
module Policy {
  import opened Common
  import opened Sorting
  import opened Patterns

  datatype Rule = Rule(
    id: string, effect: string, principals: seq<string>, groups: seq<string>, endpoints: seq<string>,
    models: seq<string>)

  datatype Document = Document(version: string, rules: seq<Rule>)

  /** `groups` is `None` where the source has a nil slice. */
  datatype Request = Request(principal: string, groups: Option<seq<string>>, endpoint: string, model: string)

  datatype Reason = PolicyAllowed | NoMatchingAllow | ExplicitDeny

  datatype Decision = Decision(allow: bool, reason: Reason, version: string, matchedIds: seq<string>)

  const MAX_RULES := 256
  const MAX_SELECTORS := 64

  function RuleId(r: Rule): string { r.id }

  // ---------- normalisation ----------

  predicate ValidSelector(values: seq<string>, pattern: string -> bool) {
    |values| <= MAX_SELECTORS && (forall i :: 0 <= i < |values| ==> pattern(values[i])) && Distinct(Itself, values)
  }

  method NormalizeSelector(values: seq<string>, pattern: string -> bool) returns (r: Option<seq<string>>)
    ensures r == if ValidSelector(values, pattern) then Some(Sort(Itself, values)) else None
  {
    if |values| > MAX_SELECTORS { return None; }
    var out: seq<string> := [];
    var seen: set<string> := {};
    for i := 0 to |values|
      invariant out == values[..i] && seen == set j | 0 <= j < i :: values[j]
      invariant forall j :: 0 <= j < i ==> pattern(values[j])
      invariant Distinct(Itself, values[..i])
    {
      if !pattern(values[i]) { return None; }
      if values[i] in seen {
        ghost var j :| 0 <= j < i && values[j] == values[i];
        assert Itself(values[j]) == Itself(values[i]);
        return None;
      }
      seen := seen + {values[i]};
      out := out + [values[i]];
    }
    assert values[..|values|] == values;
    r := Some(Sort(Itself, out));
  }

  predicate ValidRule(r: Rule) {
    && IsRuleId(r.id)
    && (r.effect == "allow" || r.effect == "deny")
    && ValidSelector(r.principals, IsUuid) && ValidSelector(r.groups, IsGroup)
    && !(r.principals == [] && r.groups == [])
    && ValidSelector(r.endpoints, IsEndpoint) && r.endpoints != []
    && ValidSelector(r.models, IsModel) && r.models != []
  }

  function SortedRule(r: Rule): Rule {
    r.(principals := Sort(Itself, r.principals), groups := Sort(Itself, r.groups),
       endpoints := Sort(Itself, r.endpoints), models := Sort(Itself, r.models))
  }

  method NormalizeRule(r: Rule) returns (clean: Option<Rule>)
    ensures clean == if ValidRule(r) then Some(SortedRule(r)) else None
  {
    hide Sort, ValidSelector, IsRuleId;
    if !IsRuleId(r.id) { return None; }
    if r.effect != "allow" && r.effect != "deny" { return None; }
    var principals := NormalizeSelector(r.principals, IsUuid);
    if principals.None? { return None; }
    var groups := NormalizeSelector(r.groups, IsGroup);
    if groups.None? { return None; }
    SortMembers(Itself, r.principals);
    SortMembers(Itself, r.groups);
    if |principals.value| == 0 && |groups.value| == 0 { return None; }
    var endpoints := NormalizeSelector(r.endpoints, IsEndpoint);
    SortMembers(Itself, r.endpoints);
    if endpoints.None? || |endpoints.value| == 0 { return None; }
    var models := NormalizeSelector(r.models, IsModel);
    SortMembers(Itself, r.models);
    if models.None? || |models.value| == 0 { return None; }
    clean := Some(Rule(r.id, r.effect, principals.value, groups.value, endpoints.value, models.value));
  }

  predicate ValidDocument(d: Document) {
    && IsVersion(d.version)
    && 0 < |d.rules| <= MAX_RULES
    && (forall i :: 0 <= i < |d.rules| ==> ValidRule(d.rules[i]))
    && Distinct(RuleId, d.rules)
  }

  function SortedRules(rules: seq<Rule>): seq<Rule> {
    if rules == [] then [] else SortedRules(rules[..|rules| - 1]) + [SortedRule(rules[|rules| - 1])]
  }

  /** The canonical document: selectors sorted inside every rule, rules sorted by id. */
  function Canonical(d: Document): Document { Document(d.version, Sort(RuleId, SortedRules(d.rules))) }

  lemma {:induction false} SortedRulesPointwise(rules: seq<Rule>)
    ensures |SortedRules(rules)| == |rules|
    ensures forall i :: 0 <= i < |rules| ==> SortedRules(rules)[i] == SortedRule(rules[i])
  {
    if rules != [] { SortedRulesPointwise(rules[..|rules| - 1]); }
  }

  method NormalizeDocument(d: Document) returns (r: Option<Document>)
    ensures r == if ValidDocument(d) then Some(Canonical(d)) else None
  {
    hide Sort, ValidRule, SortedRule, IsVersion;
    if !IsVersion(d.version) || |d.rules| == 0 || |d.rules| > MAX_RULES { return None; }
    var rules: seq<Rule> := [];
    var seenIds: set<string> := {};
    for i := 0 to |d.rules|
      invariant rules == SortedRules(d.rules[..i]) && seenIds == set j | 0 <= j < i :: d.rules[j].id
      invariant forall j :: 0 <= j < i ==> ValidRule(d.rules[j])
      invariant Distinct(RuleId, d.rules[..i])
    {
      assert d.rules[..i + 1][..i] == d.rules[..i];
      var clean := NormalizeRule(d.rules[i]);
      if clean.None? { return None; }
      SameId(d.rules[i]);
      if clean.value.id in seenIds {
        ghost var j :| 0 <= j < i && d.rules[j].id == d.rules[i].id;
        assert RuleId(d.rules[j]) == RuleId(d.rules[i]);
        return None;
      }
      seenIds := seenIds + {clean.value.id};
      rules := rules + [clean.value];
    }
    assert d.rules[..|d.rules|] == d.rules;
    r := Some(Document(d.version, Sort(RuleId, rules)));
  }

  lemma SameId(r: Rule)
    ensures SortedRule(r).id == r.id && SortedRule(r).effect == r.effect
  {
  }

  // ---------- evaluation ----------

  /**
   A rule admits a request when it lists the endpoint and the model, selects someone at all, lists the principal where
   it names principals, and shares a group with the request where it names groups.
   */
  predicate Admits(r: Rule, q: Request)
    requires q.groups.Some?
  {
    && q.endpoint in r.endpoints && q.model in r.models
    && (r.principals != [] || r.groups != [])
    && (r.principals != [] ==> q.principal in r.principals)
    && (r.groups != [] ==> exists g :: g in r.groups && g in q.groups.value)
  }

  function Values(xs: seq<string>): set<string> { set x | x in xs }

  /**
   The same in terms of sets. Identity is decided by the selectors that are present: both must agree if there are both,
   the one there is decides if there is one, and a rule without either admits nobody.
   */
  lemma AdmitsExactly(r: Rule, q: Request)
    requires q.groups.Some?
    ensures var named, grouped := q.principal in Values(r.principals), Values(r.groups) * Values(q.groups.value) != {};
            Admits(r, q) <==>
            && {q.endpoint} <= Values(r.endpoints) && {q.model} <= Values(r.models)
            && (if |r.principals| > 0 && |r.groups| > 0 then named && grouped
                else if |r.principals| > 0 then named
                else if |r.groups| > 0 then grouped
                else false)
  {
    if Values(r.groups) * Values(q.groups.value) != {} {
      var g :| g in Values(r.groups) * Values(q.groups.value);
      assert g in r.groups && g in q.groups.value;
    }
    if g :| g in r.groups && g in q.groups.value { assert g in Values(r.groups) * Values(q.groups.value); }
  }

  /** A single rule for another model or endpoint, however well it fits otherwise, allows nothing. */
  lemma OtherModelIsDenied(version: string, r: Rule, q: Request)
    requires q.model !in r.models || q.endpoint !in r.endpoints
    ensures !Decide(version, [r], q).allow && Decide(version, [r], q).reason == NoMatchingAllow
  {
    hide Sort, ValidRequestGroups, IsUuid, IsEndpoint, IsModel;
    if ValidRequest(q) {
      ValidHasGroups(q);
      assert !Admits(r, q);
    }
  }

  method Contains(values: seq<string>, want: string) returns (found: bool)
    ensures found <==> want in values
  {
    for i := 0 to |values|
      invariant want !in values[..i]
    {
      if values[i] == want { return true; }
    }
    assert values[..|values|] == values;
    found := false;
  }

  method Intersects(left: seq<string>, right: seq<string>) returns (found: bool)
    ensures found <==> exists g :: g in left && g in right
  {
    if |left| == 0 || |right| == 0 { return false; }
    var members: set<string> := {};
    for i := 0 to |left|
      invariant members == set j | 0 <= j < i :: left[j]
    {
      members := members + {left[i]};
    }
    for i := 0 to |right|
      invariant forall g :: g in right[..i] ==> g !in left
    {
      if right[i] in members {
        assert right[i] in left && right[i] in right;
        return true;
      }
      assert right[i] !in left;
    }
    assert right[..|right|] == right;
    found := false;
  }

  method RuleMatches(r: Rule, q: Request) returns (ok: bool)
    requires q.groups.Some?
    ensures ok <==> Admits(r, q)
  {
    var endpointListed := Contains(r.endpoints, q.endpoint);
    var modelListed := Contains(r.models, q.model);
    if !endpointListed || !modelListed { return false; }
    var principalListed := Contains(r.principals, q.principal);
    var groupShared := Intersects(r.groups, q.groups.value);
    var principalOk := |r.principals| == 0 || principalListed;
    var groupOk := |r.groups| == 0 || groupShared;
    if |r.principals| == 0 && |r.groups| == 0 { return false; }
    if |r.principals| > 0 && |r.groups| > 0 { return principalOk && groupOk; }
    if |r.principals| > 0 { return principalOk; }
    ok := groupOk;
  }

  predicate ValidRequestGroups(groups: Option<seq<string>>) {
    && groups.Some? && |groups.value| <= MAX_SELECTORS
    && (forall i :: 0 <= i < |groups.value| ==> IsGroup(groups.value[i]))
    && Strict(Itself, groups.value)
  }

  /** The loop compares each group with the one before it and with all seen so far. */
  method CheckRequestGroups(groups: Option<seq<string>>) returns (ok: bool)
    ensures ok <==> ValidRequestGroups(groups)
  {
    hide IsGroup, Less;
    if groups.None? || |groups.value| > MAX_SELECTORS { return false; }
    var gs := groups.value;
    var seen: set<string> := {};
    var previous := "";
    for i := 0 to |gs|
      invariant forall j :: 0 <= j < i ==> IsGroup(gs[j])
      invariant Strict(Itself, gs[..i]) && seen == (set j | 0 <= j < i :: gs[j]) && (i > 0 ==> previous == gs[i - 1])
    {
      if !IsGroup(gs[i]) { return false; }
      if gs[i] in seen {
        ghost var j :| 0 <= j < i && gs[j] == gs[i];
        LessIrreflexive(gs[i]);
        assert !Less(Itself(gs[j]), Itself(gs[i]));
        return false;
      }
      seen := seen + {gs[i]};
      if i > 0 && !Less(previous, gs[i]) {
        assert !Less(Itself(gs[i - 1]), Itself(gs[i]));
        return false;
      }
      forall j | 0 <= j < i ensures Less(gs[j], gs[i]) {
        if j < i - 1 {
          assert Less(Itself(gs[..i][j]), Itself(gs[..i][i - 1]));
          LessTransitive(gs[j], gs[i - 1], gs[i]);
        }
      }
      previous := gs[i];
    }
    assert gs[..|gs|] == gs;
    ok := true;
  }

  predicate ValidRequest(q: Request) {
    IsUuid(q.principal) && IsEndpoint(q.endpoint) && IsModel(q.model) && ValidRequestGroups(q.groups)
  }

  /** The ids of the matching rules, in document order. */
  function MatchingIds(rules: seq<Rule>, q: Request): seq<string>
    requires q.groups.Some?
  {
    if rules == [] then []
    else MatchingIds(rules[..|rules| - 1], q) + if Admits(rules[|rules| - 1], q) then [rules[|rules| - 1].id]
    else []
  }

  /** Some rule with that effect admits the request. */
  predicate Matches(rules: seq<Rule>, q: Request, effect: string)
    requires q.groups.Some?
  {
    exists i :: 0 <= i < |rules| && rules[i].effect == effect && Admits(rules[i], q)
  }

  /** Deny overrides allow; no matching allow denies. */
  function Decide(version: string, rules: seq<Rule>, q: Request): Decision {
    if !ValidRequest(q) then Decision(false, NoMatchingAllow, version, [])
    else
      var ids := Sort(Itself, MatchingIds(rules, q));
      if Matches(rules, q, "deny") then Decision(false, ExplicitDeny, version, ids)
      else if Matches(rules, q, "allow") then Decision(true, PolicyAllowed, version, ids)
      else Decision(false, NoMatchingAllow, version, ids)
  }

  method Evaluate(version: string, rules: seq<Rule>, q: Request) returns (d: Decision)
    ensures d == Decide(version, rules, q)
    ensures d.allow <==> ValidRequest(q) && Matches(rules, q, "allow") && !Matches(rules, q, "deny")
    ensures d.reason.ExplicitDeny? <==> ValidRequest(q) && Matches(rules, q, "deny")
    ensures forall id :: id in d.matchedIds <==>
                         ValidRequest(q) && exists i :: 0 <= i < |rules| && rules[i].id == id && Admits(rules[i], q)
  {
    hide Sort, IsUuid, IsEndpoint, IsModel, Admits, ValidRequestGroups;
    var groupsOk := CheckRequestGroups(q.groups);
    if !IsUuid(q.principal) || !IsEndpoint(q.endpoint) || !IsModel(q.model) || !groupsOk {
      return Decision(false, NoMatchingAllow, version, []);
    }
    ValidHasGroups(q);
    var matchedAllow, matchedDeny := false, false;
    var matchedIds: seq<string> := [];
    for i := 0 to |rules|
      invariant matchedIds == MatchingIds(rules[..i], q)
      invariant matchedDeny <==> exists j :: 0 <= j < i && rules[j].effect == "deny" && Admits(rules[j], q)
      invariant matchedAllow <==> exists j :: 0 <= j < i && rules[j].effect == "allow" && Admits(rules[j], q)
    {
      assert rules[..i + 1][..i] == rules[..i];
      var matches := RuleMatches(rules[i], q);
      if matches {
        matchedIds := matchedIds + [rules[i].id];
        if rules[i].effect == "deny" {
          matchedDeny := true;
        } else if rules[i].effect == "allow" {
          matchedAllow := true;
        }
      }
    }
    assert rules[..|rules|] == rules;
    MatchingIdsMembers(rules, q);
    SortMembers(Itself, matchedIds);
    matchedIds := Sort(Itself, matchedIds);
    if matchedDeny { return Decision(false, ExplicitDeny, version, matchedIds); }
    if matchedAllow { return Decision(true, PolicyAllowed, version, matchedIds); }
    d := Decision(false, NoMatchingAllow, version, matchedIds);
  }

  lemma ValidHasGroups(q: Request)
    requires ValidRequestGroups(q.groups)
    ensures q.groups.Some?
  {
  }

  // ---------- canonical order does not change decisions ----------

  /** Two rules that differ only in the order of their selectors. */
  predicate SameSelectors(r: Rule, r': Rule) {
    && r'.id == r.id && r'.effect == r.effect
    && multiset(r'.principals) == multiset(r.principals) && multiset(r'.groups) == multiset(r.groups)
    && multiset(r'.endpoints) == multiset(r.endpoints) && multiset(r'.models) == multiset(r.models)
  }

  /** `d'` has the rules of `d`, possibly in another order and with the selectors inside each rule in another order. */
  predicate Rearranges(d: Document, order: seq<Rule>, d': Document) {
    && d'.version == d.version
    && multiset(order) == multiset(d.rules)
    && |order| == |d'.rules| && forall i :: 0 <= i < |order| ==> SameSelectors(order[i], d'.rules[i])
  }

  lemma SelectorPermuted(xs: seq<string>, ys: seq<string>, pattern: string -> bool)
    requires multiset(xs) == multiset(ys)
    ensures ValidSelector(xs, pattern) <==> ValidSelector(ys, pattern)
    ensures ValidSelector(xs, pattern) ==> Sort(Itself, xs) == Sort(Itself, ys)
    ensures xs == [] <==> ys == []
    ensures forall x :: x in xs <==> x in ys
  {
    assert |xs| == |multiset(xs)| == |multiset(ys)| == |ys|;
    assert forall x :: (x in xs <==> x in multiset(xs)) && (x in ys <==> x in multiset(ys));
    if Distinct(Itself, xs) { DistinctUnderPermutation(Itself, xs, ys); }
    if Distinct(Itself, ys) { DistinctUnderPermutation(Itself, ys, xs); }
    if ValidSelector(xs, pattern) {
      SortCanonical(Itself, xs, ys);
      assert forall i :: 0 <= i < |ys| ==> ys[i] in xs;
    }
    if ValidSelector(ys, pattern) {
      assert forall i :: 0 <= i < |xs| ==> xs[i] in ys;
    }
  }

  lemma RulePermuted(r: Rule, r': Rule)
    requires SameSelectors(r, r')
    ensures ValidRule(r) <==> ValidRule(r')
    ensures ValidRule(r) ==> SortedRule(r) == SortedRule(r')
  {
    hide ValidSelector, Sort, IsRuleId;
    SelectorPermuted(r.principals, r'.principals, IsUuid);
    SelectorPermuted(r.groups, r'.groups, IsGroup);
    SelectorPermuted(r.endpoints, r'.endpoints, IsEndpoint);
    SelectorPermuted(r.models, r'.models, IsModel);
  }

  lemma SortingKeepsMatch(r: Rule, q: Request)
    requires q.groups.Some?
    ensures Admits(SortedRule(r), q) <==> Admits(r, q)
  {
    hide Sort;
    SortMembers(Itself, r.principals);
    SortMembers(Itself, r.groups);
    SortMembers(Itself, r.endpoints);
    SortMembers(Itself, r.models);
  }

  predicate HasMatch(rules: seq<Rule>, q: Request, id: string)
    requires q.groups.Some?
  {
    exists i :: 0 <= i < |rules| && rules[i].id == id && Admits(rules[i], q)
  }

  lemma {:induction false} MatchingIdsMembers(rules: seq<Rule>, q: Request)
    requires q.groups.Some?
    ensures forall id :: id in MatchingIds(rules, q) <==> HasMatch(rules, q, id)
    ensures Distinct(RuleId, rules) ==> Distinct(Itself, MatchingIds(rules, q))
  {
    hide Admits;
    if rules != [] {
      var n := |rules| - 1;
      var ids := MatchingIds(rules[..n], q);
      MatchingIdsMembers(rules[..n], q);
      assert forall i :: 0 <= i < n ==> rules[..n][i] == rules[i];
      forall id ensures HasMatch(rules, q, id) <==>
          HasMatch(rules[..n], q, id) || (id == rules[n].id && Admits(rules[n], q)) {
        if HasMatch(rules[..n], q, id) {
          var i :| 0 <= i < n && rules[..n][i].id == id && Admits(rules[..n][i], q);
          assert rules[i].id == id;
        }
        if HasMatch(rules, q, id) {
          var i :| 0 <= i < |rules| && rules[i].id == id && Admits(rules[i], q);
          assert i < n ==> rules[..n][i] == rules[i];
        }
      }
      if Distinct(RuleId, rules) {
        assert Distinct(RuleId, rules[..n]);
        forall i | 0 <= i < |ids| ensures Itself(ids[i]) != Itself(rules[n].id) {
          assert ids[i] in ids && HasMatch(rules[..n], q, ids[i]);
          var j :| 0 <= j < n && rules[..n][j].id == ids[i] && Admits(rules[..n][j], q);
          assert RuleId(rules[j]) != RuleId(rules[n]);
        }
      }
    }
  }

  /** What normalisation does to the rules: the same rules with sorted selectors, in some order. */
  lemma CanonicalMembers(d: Document)
    ensures forall r :: r in Canonical(d).rules <==> exists i :: 0 <= i < |d.rules| && r == SortedRule(d.rules[i])
    ensures |Canonical(d).rules| == |d.rules|
    ensures Distinct(RuleId, d.rules) ==> Distinct(RuleId, SortedRules(d.rules)) && Distinct(RuleId, Canonical(d).rules)
  {
    hide Sort, SortedRule;
    var rules := SortedRules(d.rules);
    SortedRulesPointwise(d.rules);
    SortMembers(RuleId, rules);
    forall i | 0 <= i < |rules| ensures RuleId(rules[i]) == RuleId(d.rules[i]) { SameId(d.rules[i]); }
    if Distinct(RuleId, d.rules) {
      forall i, j | 0 <= i < j < |rules| ensures RuleId(rules[i]) != RuleId(rules[j]) {
        assert RuleId(d.rules[i]) != RuleId(d.rules[j]);
      }
      DistinctUnderPermutation(RuleId, rules, Sort(RuleId, rules));
    }
  }

  lemma CanonicalMatches(d: Document, q: Request, effect: string)
    requires q.groups.Some?
    ensures Matches(Canonical(d).rules, q, effect) <==> Matches(d.rules, q, effect)
  {
    hide Sort, Admits, SortedRule, Canonical;
    var rules := Canonical(d).rules;
    CanonicalMembers(d);
    if Matches(rules, q, effect) {
      var i :| 0 <= i < |rules| && rules[i].effect == effect && Admits(rules[i], q);
      assert rules[i] in rules;
      var j :| 0 <= j < |d.rules| && rules[i] == SortedRule(d.rules[j]);
      SameId(d.rules[j]);
      SortingKeepsMatch(d.rules[j], q);
    }
    if Matches(d.rules, q, effect) {
      var j :| 0 <= j < |d.rules| && d.rules[j].effect == effect && Admits(d.rules[j], q);
      SameId(d.rules[j]);
      SortingKeepsMatch(d.rules[j], q);
      assert SortedRule(d.rules[j]) in rules;
    }
  }

  lemma CanonicalIds(d: Document, q: Request)
    requires q.groups.Some?
    ensures forall id :: id in MatchingIds(Canonical(d).rules, q) <==> id in MatchingIds(d.rules, q)
  {
    hide Sort, Admits, SortedRule, Canonical, MatchingIds;
    var rules := Canonical(d).rules;
    CanonicalMembers(d);
    MatchingIdsMembers(rules, q);
    MatchingIdsMembers(d.rules, q);
    forall id ensures id in MatchingIds(rules, q) <==> id in MatchingIds(d.rules, q) {
      if id in MatchingIds(rules, q) {
        assert HasMatch(rules, q, id);
        var i :| 0 <= i < |rules| && rules[i].id == id && Admits(rules[i], q);
        assert rules[i] in rules;
        var j :| 0 <= j < |d.rules| && rules[i] == SortedRule(d.rules[j]);
        SameId(d.rules[j]);
        SortingKeepsMatch(d.rules[j], q);
      }
      if id in MatchingIds(d.rules, q) {
        assert HasMatch(d.rules, q, id);
        var j :| 0 <= j < |d.rules| && d.rules[j].id == id && Admits(d.rules[j], q);
        SameId(d.rules[j]);
        SortingKeepsMatch(d.rules[j], q);
        assert SortedRule(d.rules[j]) in rules;
        var i :| 0 <= i < |rules| && rules[i] == SortedRule(d.rules[j]);
        assert HasMatch(rules, q, id);
      }
    }
  }

  /**
   The engine decides on the canonical document exactly as deny-overrides-allow decides on the document as written.
   */
  lemma NormalisationKeepsDecisions(d: Document, q: Request)
    requires ValidDocument(d)
    ensures Decide(d.version, Canonical(d).rules, q) == Decide(d.version, d.rules, q)
  {
    hide Sort, Canonical, MatchingIds, IsUuid, IsEndpoint, IsModel, ValidRule;
    if ValidRequest(q) {
      CanonicalMembers(d);
      CanonicalMatches(d, q, "deny");
      CanonicalMatches(d, q, "allow");
      CanonicalIds(d, q);
      MatchingIdsMembers(d.rules, q);
      MatchingIdsMembers(Canonical(d).rules, q);
      SortCanonical(Itself, MatchingIds(Canonical(d).rules, q), MatchingIds(d.rules, q));
    }
  }

  lemma SelectorOrderIgnored(order: seq<Rule>, rules: seq<Rule>)
    requires |order| == |rules| && forall i :: 0 <= i < |order| ==> SameSelectors(order[i], rules[i])
    ensures (forall i :: 0 <= i < |order| ==> ValidRule(order[i])) <==>
            (forall i :: 0 <= i < |rules| ==> ValidRule(rules[i]))
    ensures Distinct(RuleId, order) <==> Distinct(RuleId, rules)
    ensures (forall i :: 0 <= i < |order| ==> ValidRule(order[i])) ==> SortedRules(order) == SortedRules(rules)
  {
    hide ValidRule, SortedRule, Distinct, SameSelectors;
    forall i | 0 <= i < |order| ensures (ValidRule(order[i]) <==> ValidRule(rules[i]))
        && (ValidRule(order[i]) ==> SortedRule(order[i]) == SortedRule(rules[i])) {
      RulePermuted(order[i], rules[i]);
    }
    SameIds(order, rules);
    SortedRulesPointwise(order);
    SortedRulesPointwise(rules);
  }

  lemma SameIds(order: seq<Rule>, rules: seq<Rule>)
    requires |order| == |rules| && forall i :: 0 <= i < |order| ==> SameSelectors(order[i], rules[i])
    ensures Distinct(RuleId, order) <==> Distinct(RuleId, rules)
  {
    assert forall i :: 0 <= i < |order| ==> RuleId(order[i]) == RuleId(rules[i]);
  }

  lemma RuleOrderKeepsValidity(d: Document, order: seq<Rule>)
    requires multiset(order) == multiset(d.rules)
    ensures ValidDocument(d.(rules := order)) <==> ValidDocument(d)
    ensures Distinct(RuleId, order) <==> Distinct(RuleId, d.rules)
    ensures forall r :: r in order <==> r in d.rules
  {
    hide ValidRule, IsVersion, Distinct;
    assert |order| == |multiset(order)| == |multiset(d.rules)| == |d.rules|;
    assert forall r :: (r in order <==> r in multiset(order)) && (r in d.rules <==> r in multiset(d.rules));
    assert (forall i :: 0 <= i < |order| ==> order[i] in d.rules)
           && (forall i :: 0 <= i < |d.rules| ==> d.rules[i] in order);
    if Distinct(RuleId, d.rules) { DistinctUnderPermutation(RuleId, d.rules, order); }
    if Distinct(RuleId, order) { DistinctUnderPermutation(RuleId, order, d.rules); }
  }

  lemma SortedRulesMembers(xs: seq<Rule>, ys: seq<Rule>, r: Rule)
    requires forall r :: r in xs ==> r in ys
    ensures r in SortedRules(xs) ==> r in SortedRules(ys)
  {
    hide SortedRule;
    SortedRulesPointwise(xs);
    SortedRulesPointwise(ys);
    if r in SortedRules(xs) {
      var i :| 0 <= i < |xs| && SortedRules(xs)[i] == r;
      assert xs[i] in xs;
      var j :| 0 <= j < |ys| && ys[j] == xs[i];
      assert SortedRules(ys)[j] == r;
    }
  }

  lemma RuleOrderIgnored(d: Document, order: seq<Rule>)
    requires multiset(order) == multiset(d.rules)
    ensures ValidDocument(d.(rules := order)) <==> ValidDocument(d)
    ensures ValidDocument(d) ==> Canonical(d.(rules := order)) == Canonical(d)
  {
    hide ValidRule, SortedRules, Sort, IsVersion, Distinct;
    RuleOrderKeepsValidity(d, order);
    if ValidDocument(d) {
      CanonicalMembers(d);
      CanonicalMembers(d.(rules := order));
      forall r ensures r in SortedRules(order) <==> r in SortedRules(d.rules) {
        SortedRulesMembers(order, d.rules, r);
        SortedRulesMembers(d.rules, order, r);
      }
      SortCanonical(RuleId, SortedRules(order), SortedRules(d.rules));
    }
  }

  /**
   Reordering rules, and selectors inside rules, changes neither acceptance, nor the canonical document, nor any
   decision.
   */
  lemma OrderNeverMatters(d: Document, order: seq<Rule>, d': Document, q: Request)
    requires Rearranges(d, order, d')
    ensures ValidDocument(d) <==> ValidDocument(d')
    ensures ValidDocument(d) ==> Canonical(d) == Canonical(d')
    ensures ValidDocument(d) ==> Decide(d.version, d.rules, q) == Decide(d'.version, d'.rules, q)
  {
    hide ValidRule, SortedRules, Sort, IsVersion, Decide;
    SelectorOrderIgnored(order, d'.rules);
    RuleOrderIgnored(d, order);
    if ValidDocument(d) {
      NormalisationKeepsDecisions(d, q);
      NormalisationKeepsDecisions(d', q);
    }
  }

  // ---------- limits ----------

  /** Documents hold 1 to 256 rules and selectors up to 64 values; nothing else about their size matters. */
  lemma SizeLimits(d: Document, values: seq<string>, pattern: string -> bool)
    ensures |d.rules| == 0 || |d.rules| > 256 ==> !ValidDocument(d)
    ensures (IsVersion(d.version) && 1 <= |d.rules| <= 256
             && (forall i :: 0 <= i < |d.rules| ==> ValidRule(d.rules[i])) && Distinct(RuleId, d.rules)) ==>
              ValidDocument(d)
    ensures |values| > 64 ==> !ValidSelector(values, pattern)
    ensures (|values| <= 64 && (forall i :: 0 <= i < |values| ==> pattern(values[i])) && Distinct(Itself, values)) ==>
              ValidSelector(values, pattern)
  {
    hide ValidRule, IsVersion;
  }
}
