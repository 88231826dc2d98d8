/** Compact JSON: the printer, a parser for what it prints, and the proof that parsing inverts printing. */
module Json {
  import opened Common
  import opened Chars
  import opened Text

  datatype Json =
    | Null
    | Num(n: int)
    | Str(s: string)
    | Arr(items: seq<Json>)
    | Obj(members: seq<Member>)

  datatype Member = Member(key: string, value: Json)

  /** A character that JSON encoding writes as it is. */
  predicate Plain(c: char) { ' ' <= c <= '~' && c != '"' && c != '\\' && c != '<' && c != '>' && c != '&' }

  predicate PlainText(s: string) { forall i :: 0 <= i < |s| ==> Plain(s[i]) }

  /** Every string in the value is written without escapes. */
  predicate Unescaped(v: Json) {
    match v
    case Null => true
    case Num(_) => true
    case Str(s) => PlainText(s)
    case Arr(items) => forall i :: 0 <= i < |items| ==> Unescaped(items[i])
    case Obj(members) => forall i :: 0 <= i < |members| ==> PlainText(members[i].key) && Unescaped(members[i].value)
  }

  // ---------- printing ----------

  function Print(v: Json): string {
    match v
    case Null => "null"
    case Num(n) => if n < 0 then "-" + NatText(-n) else NatText(n)
    case Str(s) => "\"" + s + "\""
    case Arr(items) => if items == [] then "[]" else "[" + PrintItems(items)
    case Obj(members) => if members == [] then "{}" else "{" + PrintMembers(members)
  }

  function PrintItems(items: seq<Json>): string
    requires items != []
  {
    if |items| == 1 then Print(items[0]) + "]" else Print(items[0]) + "," + PrintItems(items[1..])
  }

  function PrintMembers(members: seq<Member>): string
    requires members != []
  {
    var first := "\"" + members[0].key + "\":" + Print(members[0].value);
    if |members| == 1 then first + "}" else first + "," + PrintMembers(members[1..])
  }

  // ---------- parsing ----------

  /** Splits at the first quotation mark. */
  function TakeString(s: string): (r: Option<(string, string)>)
    ensures r.Some? ==> |r.value.1| < |s|
  {
    if s == [] then None
    else if s[0] == '"' then Some(([], s[1..]))
    else
      var (text, rest) :- TakeString(s[1..]);
      Some(([s[0]] + text, rest))
  }

  function TakeDigits(s: string): (r: (string, string))
    ensures AllDigits(r.0) && |r.0| + |r.1| == |s|
  {
    if s == [] || !Digit(s[0]) then ([], s)
    else
      var (digits, rest) := TakeDigits(s[1..]);
      ([s[0]] + digits, rest)
  }

  function ParseNumber(s: string): (r: Option<(Json, string)>)
    ensures r.Some? ==> |r.value.1| < |s|
  {
    if s != [] && s[0] == '-' then
      var (digits, rest) := TakeDigits(s[1..]);
      var n: int := NatValue(digits);
      if digits == [] then None else Some((Num(-n), rest))
    else
      var (digits, rest) := TakeDigits(s);
      if digits == [] then None else Some((Num(NatValue(digits)), rest))
  }

  function Parse(s: string): (r: Option<(Json, string)>)
    ensures r.Some? ==> |r.value.1| < |s|
    decreases |s|, 0
  {
    if s == [] then None
    else if s[0] == 'n' then (if |s| >= 4 && s[..4] == "null" then Some((Null, s[4..])) else None)
    else if s[0] == '"' then
      var (text, rest) :- TakeString(s[1..]);
      Some((Str(text), rest))
    else if s[0] == '[' then
      if |s| >= 2 && s[1] == ']' then Some((Arr([]), s[2..]))
      else
        var (items, rest) :- ParseItems(s[1..]);
        Some((Arr(items), rest))
    else if s[0] == '{' then
      if |s| >= 2 && s[1] == '}' then Some((Obj([]), s[2..]))
      else
        var (members, rest) :- ParseMembers(s[1..]);
        Some((Obj(members), rest))
    else ParseNumber(s)
  }

  function ParseItems(s: string): (r: Option<(seq<Json>, string)>)
    ensures r.Some? ==> |r.value.1| < |s|
    decreases |s|, 1
  {
    var (v, rest) :- Parse(s);
    if rest == [] then None
    else if rest[0] == ']' then Some(([v], rest[1..]))
    else if rest[0] == ',' then
      var (items, rest') :- ParseItems(rest[1..]);
      Some(([v] + items, rest'))
    else None
  }

  function ParseMembers(s: string): (r: Option<(seq<Member>, string)>)
    ensures r.Some? ==> |r.value.1| < |s|
    decreases |s|, 1
  {
    if s == [] || s[0] != '"' then None
    else
      var (key, rest1) :- TakeString(s[1..]);
      if rest1 == [] || rest1[0] != ':' then None
      else
        var (v, rest2) :- Parse(rest1[1..]);
        if rest2 == [] then None
        else if rest2[0] == '}' then Some(([Member(key, v)], rest2[1..]))
        else if rest2[0] == ',' then
          var (members, rest3) :- ParseMembers(rest2[1..]);
          Some(([Member(key, v)] + members, rest3))
        else None
  }

  /** The whole text must be one value. */
  function Decode(s: string): Option<Json> {
    var (v, rest) :- Parse(s);
    if rest == [] then Some(v) else None
  }

  // ---------- parsing inverts printing ----------

  lemma {:induction false} TakeStringPlain(text: string, rest: string)
    requires PlainText(text)
    ensures TakeString(text + "\"" + rest) == Some((text, rest))
  {
    var s := text + "\"" + rest;
    if text == [] {
      assert s[1..] == rest;
    } else {
      TakeStringPlain(text[1..], rest);
      assert s[1..] == text[1..] + "\"" + rest;
      assert [text[0]] + text[1..] == text;
    }
  }

  lemma {:induction false} TakeDigitsAll(digits: string, rest: string)
    requires AllDigits(digits) && (rest == [] || !Digit(rest[0]))
    ensures TakeDigits(digits + rest) == (digits, rest)
  {
    var s := digits + rest;
    if digits == [] {
      assert s == rest;
    } else {
      TakeDigitsAll(digits[1..], rest);
      assert s[1..] == digits[1..] + rest;
      assert [digits[0]] + digits[1..] == digits;
    }
  }

  lemma NumberRoundTrip(n: int, rest: string)
    requires rest == [] || !Digit(rest[0])
    ensures Parse(Print(Num(n)) + rest) == Some((Num(n), rest))
  {
    hide NatText, NatValue, TakeDigits;
    var s := Print(Num(n)) + rest;
    if n < 0 {
      NatRoundTrip(-n);
      TakeDigitsAll(NatText(-n), rest);
      assert s[1..] == NatText(-n) + rest;
    } else {
      NatRoundTrip(n);
      TakeDigitsAll(NatText(n), rest);
      assert Digit(s[0]);
    }
  }

  lemma PrintStarts(v: Json)
    ensures |Print(v)| >= 1 && Print(v)[0] != ']' && Print(v)[0] != '}'
  {
    if v.Num? && v.n >= 0 { assert Digit(NatText(v.n)[0]); }
  }

  lemma ItemsStart(items: seq<Json>)
    requires items != []
    ensures |PrintItems(items)| >= 1 && PrintItems(items)[0] != ']'
  {
    hide Print;
    PrintStarts(items[0]);
  }

  lemma MembersStart(members: seq<Member>)
    requires members != []
    ensures |PrintMembers(members)| >= 1 && PrintMembers(members)[0] == '"'
  {
    hide Print;
  }

  /** A value is read back from its own text, whatever non-digit follows it. */
  lemma {:induction false} ParsePrint(v: Json, rest: string)
    requires Unescaped(v) && (rest == [] || !Digit(rest[0]))
    ensures Parse(Print(v) + rest) == Some((v, rest))
    decreases v
  {
    hide NatText, NatValue, TakeDigits, TakeString, ParseNumber, ParseItems, ParseMembers, PrintItems, PrintMembers;
    var s := Print(v) + rest;
    match v
    case Null =>
      assert s[..4] == "null" && s[4..] == rest;
    case Num(n) => NumberRoundTrip(n, rest);
    case Str(t) =>
      TakeStringPlain(t, rest);
      assert s[1..] == t + "\"" + rest;
    case Arr(items) =>
      if items == [] {
        assert s[2..] == rest;
      } else {
        ParseItemsPrint(items, rest);
        assert s[1..] == PrintItems(items) + rest;
        ItemsStart(items);
        assert s[1] == PrintItems(items)[0];
      }
    case Obj(members) =>
      if members == [] {
        assert s[2..] == rest;
      } else {
        ParseMembersPrint(members, rest);
        assert s[1..] == PrintMembers(members) + rest;
        MembersStart(members);
        assert s[1] == PrintMembers(members)[0];
      }
  }

  lemma {:induction false} ParseItemsPrint(items: seq<Json>, rest: string)
    requires items != [] && forall i :: 0 <= i < |items| ==> Unescaped(items[i])
    ensures ParseItems(PrintItems(items) + rest) == Some((items, rest))
    decreases items
  {
    hide Print, Parse;
    var first, s := Print(items[0]), PrintItems(items) + rest;
    if |items| == 1 {
      ParsePrint(items[0], "]" + rest);
      assert s == first + ("]" + rest) && ("]" + rest)[1..] == rest;
      assert items == [items[0]];
    } else {
      var more := "," + PrintItems(items[1..]) + rest;
      ParsePrint(items[0], more);
      ParseItemsPrint(items[1..], rest);
      assert s == first + more && more[1..] == PrintItems(items[1..]) + rest;
      assert [items[0]] + items[1..] == items;
    }
  }

  lemma {:induction false} ParseMembersPrint(members: seq<Member>, rest: string)
    requires members != [] && forall i :: 0 <= i < |members| ==>
             PlainText(members[i].key) && Unescaped(members[i].value)
    ensures ParseMembers(PrintMembers(members) + rest) == Some((members, rest))
    decreases members
  {
    hide Print, Parse, TakeString, ParseMembers;
    var m := members[0];
    var s := PrintMembers(members) + rest;
    if |members| == 1 {
      var tail := "}" + rest;
      ParsePrint(m.value, tail);
      FirstMember(m, tail);
      assert s == "\"" + m.key + "\"" + (":" + (Print(m.value) + tail));
      assert tail[1..] == rest && members == [m];
    } else {
      var tail := "," + PrintMembers(members[1..]) + rest;
      ParsePrint(m.value, tail);
      FirstMember(m, tail);
      assert s == "\"" + m.key + "\"" + (":" + (Print(m.value) + tail));
      ParseMembersPrint(members[1..], rest);
      assert tail[1..] == PrintMembers(members[1..]) + rest;
      assert [m] + members[1..] == members;
    }
  }

  lemma FirstMember(m: Member, tail: string)
    requires PlainText(m.key) && tail != [] && Parse(Print(m.value) + tail) == Some((m.value, tail))
    ensures var s := "\"" + m.key + "\"" + (":" + (Print(m.value) + tail));
            && (tail[0] == '}' ==> ParseMembers(s) == Some(([m], tail[1..])))
            && (tail[0] == ',' && ParseMembers(tail[1..]).Some? ==>
                  ParseMembers(s) == Some(([m] + ParseMembers(tail[1..]).value.0, ParseMembers(tail[1..]).value.1)))
  {
    hide Print, Parse, TakeString;
    var after := ":" + (Print(m.value) + tail);
    var s := "\"" + m.key + "\"" + after;
    TakeStringPlain(m.key, after);
    assert s[1..] == m.key + "\"" + after && after[1..] == Print(m.value) + tail;
  }

  /** Decoding inverts printing, so two values with the same text are the same value. */
  lemma DecodePrint(v: Json)
    requires Unescaped(v)
    ensures Decode(Print(v)) == Some(v)
  {
    ParsePrint(v, []);
    assert Print(v) + [] == Print(v);
  }

  // ---------- a text depends on the texts of its parts only ----------

  lemma {:induction false} PrintItemsSame(xs: seq<Json>, ys: seq<Json>)
    requires xs != [] && |xs| == |ys| && forall i :: 0 <= i < |xs| ==> Print(xs[i]) == Print(ys[i])
    ensures PrintItems(xs) == PrintItems(ys)
  {
    hide Print;
    if |xs| > 1 { PrintItemsSame(xs[1..], ys[1..]); }
  }

  lemma {:induction false} PrintMembersSame(xs: seq<Member>, ys: seq<Member>)
    requires xs != [] && |xs| == |ys| && forall i :: 0 <= i < |xs| ==>
             xs[i].key == ys[i].key && Print(xs[i].value) == Print(ys[i].value)
    ensures PrintMembers(xs) == PrintMembers(ys)
  {
    hide Print;
    if |xs| > 1 { PrintMembersSame(xs[1..], ys[1..]); }
  }

  // ---------- known values ----------

  lemma PrintScalars()
    ensures Print(Null) == "null" && Print(Num(-10)) == "-10" && Print(Num(7)) == "7" && Print(Str("x")) == "\"x\""
    ensures Print(Arr([])) == "[]" && Print(Obj([])) == "{}"
  {
    assert NatText(1) == "1" && NatText(10) == "10";
  }

  lemma PrintPair(v: Json, w: Json)
    ensures Print(Arr([v, w])) == "[" + Print(v) + "," + Print(w) + "]"
  {
    hide Print, PrintItems;
    ItemsUnfold([v, w]);
    ItemsUnfold([w]);
    assert [v, w][1..] == [w];
    PrintUnfolds([v, w], [Member("", v)]);
    assert PrintItems([v, w]) == Print(v) + "," + (Print(w) + "]");
  }

  lemma PrintMemberPair(v: Json, w: Json)
    ensures Print(Obj([Member("a", v), Member("b", w)])) == "{" + ("\"a\":" + Print(v)) + "," + ("\"b\":" + Print(w))
            + "}"
  {
    hide Print, PrintMembers;
    var members := [Member("a", v), Member("b", w)];
    MembersUnfold(members);
    MembersUnfold([Member("b", w)]);
    assert members[1..] == [Member("b", w)];
    PrintUnfolds([v], members);
    assert PrintMembers(members) == ("\"a\":" + Print(v)) + "," + (("\"b\":" + Print(w)) + "}");
  }

  lemma ItemsUnfold(items: seq<Json>)
    requires items != []
    ensures PrintItems(items) ==
            if |items| == 1 then Print(items[0]) + "]" else Print(items[0]) + "," + PrintItems(items[1..])
  {
  }

  lemma MembersUnfold(members: seq<Member>)
    requires members != []
    ensures PrintMembers(members) ==
            var first := "\"" + members[0].key + "\":" + Print(members[0].value);
            if |members| == 1 then first + "}" else first + "," + PrintMembers(members[1..])
  {
  }

  lemma PrintUnfolds(items: seq<Json>, members: seq<Member>)
    requires items != [] && members != []
    ensures Print(Arr(items)) == "[" + PrintItems(items) && Print(Obj(members)) == "{" + PrintMembers(members)
  {
  }
}
