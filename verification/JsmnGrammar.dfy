/**
 JSON texts after sections 2 to 7 of RFC 8259 as concrete syntax trees, and the
 round trip: the tokenizer turns the text of every tree into its preorder token list.

 A tree records the blanks and the raw characters of strings and numbers, so that
 every text of the grammar is the text of some tree.
 */
module JsmnGrammar {
  import opened JsmnModel
  import JsmnLexis

  datatype Json =
    | Bare(text: string)
    | Quoted(body: string)
    | ArrayOf(blank: string, items: seq<Item>)
    | ObjectOf(blank: string, members: seq<Member>)

  datatype Item = Item(before: string, value: Json, after: string)

  datatype Member = Member(before: string, key: string, beforeColon: string, afterColon: string, value: Json,
    after: string)

  // ---------- the grammar ----------

  /** ws = space, tab, line feed and carriage return */
  predicate Blanks(s: string) {
    forall i :: 0 <= i < |s| ==> s[i] in " \t\n\r"
  }

  predicate IsDigit(c: char) {
    '0' <= c <= '9'
  }

  function DropDigits(s: string): string {
    if s != "" && IsDigit(s[0]) then DropDigits(s[1..]) else s
  }

  predicate StartsWithDigit(s: string) {
    s != "" && IsDigit(s[0])
  }

  /** exp = ( e / E ) [ - / + ] 1*DIGIT, or nothing */
  predicate IsExponent(s: string) {
    s == "" ||
    ((s[0] == 'e' || s[0] == 'E') &&
     var d := if |s| > 1 && (s[1] == '-' || s[1] == '+') then s[2..] else s[1..];
     StartsWithDigit(d) && DropDigits(d) == "")
  }

  /** [ frac ] [ exp ] */
  predicate IsFractionAndExponent(s: string) {
    if s != "" && s[0] == '.' then StartsWithDigit(s[1..]) && IsExponent(DropDigits(s[1..])) else IsExponent(s)
  }

  /** number = [ minus ] int [ frac ] [ exp ] */
  predicate IsNumber(s: string) {
    var u := if s != "" && s[0] == '-' then s[1..] else s;
    StartsWithDigit(u) && IsFractionAndExponent(if u[0] == '0' then u[1..] else DropDigits(u))
  }

  predicate IsLiteral(s: string) {
    s == "false" || s == "null" || s == "true"
  }

  /** *char between the quotation marks of a string */
  predicate IsStringBody(s: string) {
    if s == "" then true
    else if s[0] == '\\' then
      if |s| >= 2 && s[1] in "\"\\/bfnrt" then IsStringBody(s[2..])
      else
        && |s| >= 6 && s[1] == 'u' && (forall i :: 2 <= i < 6 ==> s[i] in "0123456789abcdefABCDEF")
        && IsStringBody(s[6..])
    else s[0] >= ' ' && s[0] != '"' && IsStringBody(s[1..])
  }

  predicate WellFormed(v: Json) {
    match v
    case Bare(text) => IsLiteral(text) || IsNumber(text)
    case Quoted(body) => IsStringBody(body)
    case ArrayOf(blank, items) => Blanks(blank) && WellFormedItems(items)
    case ObjectOf(blank, members) => Blanks(blank) && WellFormedMembers(members)
  }

  predicate WellFormedItems(items: seq<Item>) {
    items == [] ||
    (Blanks(items[0].before) && WellFormed(items[0].value) && Blanks(items[0].after) && WellFormedItems(items[1..]))
  }

  predicate WellFormedMembers(members: seq<Member>) {
    members == [] ||
    (var m := members[0];
     && Blanks(m.before) && IsStringBody(m.key) && Blanks(m.beforeColon)
     && Blanks(m.afterColon) && WellFormed(m.value) && Blanks(m.after)
     && WellFormedMembers(members[1..]))
  }

  // ---------- texts ----------

  function Text(v: Json): string {
    match v
    case Bare(text) => text
    case Quoted(body) => "\"" + body + "\""
    case ArrayOf(blank, items) => "[" + (if items == [] then blank else ItemsText(items)) + "]"
    case ObjectOf(blank, members) => "{" + (if members == [] then blank else MembersText(members)) + "}"
  }

  function ItemsText(items: seq<Item>): string
    requires items != []
  {
    items[0].before + Text(items[0].value) + items[0].after +
    (if |items| == 1 then "" else "," + ItemsText(items[1..]))
  }

  function KeyText(m: Member): string {
    m.before + ("\"" + m.key + "\"") + m.beforeColon + ":" + m.afterColon
  }

  function MembersText(members: seq<Member>): string
    requires members != []
  {
    var m := members[0];
    KeyText(m) + Text(m.value) + m.after + (if |members| == 1 then "" else "," + MembersText(members[1..]))
  }

  // ---------- the tokens a text stands for ----------

  /** The preorder token list of a value whose text begins at p. */
  function Tokens(v: Json, p: nat): seq<Token> {
    match v
    case Bare(text) => [Token(Primitive, p, p + |text|, 0)]
    case Quoted(body) => [Token(String, p + 1, p + 1 + |body|, 0)]
    case ArrayOf(_, items) => [Token(Array, p, p + |Text(v)|, |items|)] + ItemTokens(items, p + 1)
    case ObjectOf(_, members) => [Token(Object, p, p + |Text(v)|, |members|)] + MemberTokens(members, p + 1)
  }

  function ItemTokens(items: seq<Item>, p: nat): seq<Token> {
    if items == [] then []
    else
      var q := p + |items[0].before|;
      Tokens(items[0].value, q) +
      ItemTokens(items[1..], q + |Text(items[0].value)| + |items[0].after| + 1)
  }

  function MemberTokens(members: seq<Member>, p: nat): seq<Token> {
    if members == [] then []
    else
      var m := members[0];
      var k := p + |m.before|;
      var q := p + |KeyText(m)|;
      [Token(String, k + 1, k + 1 + |m.key|, 1)] +
      Tokens(m.value, q) +
      MemberTokens(members[1..], q + |Text(m.value)| + |m.after| + 1)
  }

  // ---------- lexical lemmas ----------

  predicate At(js: string, p: nat, t: string) {
    p + |t| <= |js| && js[p..p + |t|] == t
  }

  lemma AtSplit(js: string, p: nat, a: string, b: string)
    ensures At(js, p, a + b) <==> At(js, p, a) && At(js, p + |a|, b)
  {
    if p + |a| + |b| <= |js| {
      assert js[p..p + |a| + |b|] == js[p..p + |a|] + js[p + |a|..p + |a| + |b|];
      if At(js, p, a + b) {
        assert js[p..p + |a|] == (a + b)[..|a|];
        assert js[p + |a|..p + |a| + |b|] == (a + b)[|a|..];
      }
    }
  }

  lemma AtBegin(js: string, t: string, rest: string)
    requires js == t + rest
    ensures At(js, 0, t)
  {
  }

  lemma AtIndex(js: string, p: nat, t: string, i: nat)
    requires At(js, p, t) && i < |t|
    ensures p + i < |js| && js[p + i] == t[i]
  {
    assert js[p..p + |t|][i] == t[i];
  }

  lemma AtDrop(js: string, p: nat, t: string, k: nat)
    requires At(js, p, t) && k <= |t|
    ensures At(js, p + k, t[k..])
  {
    assert t == t[..k] + t[k..];
    AtSplit(js, p, t[..k], t[k..]);
  }

  predicate NumberChar(c: char) {
    IsDigit(c) || c == '-' || c == '+' || c == '.' || c == 'e' || c == 'E'
  }

  predicate AllNumberChars(s: string) {
    forall i :: 0 <= i < |s| ==> NumberChar(s[i])
  }

  lemma {:induction false} DroppedDigits(s: string)
    requires AllNumberChars(DropDigits(s))
    ensures AllNumberChars(s)
  {
    if s != "" && IsDigit(s[0]) {
      DroppedDigits(s[1..]);
      assert s == [s[0]] + s[1..];
    }
  }

  lemma ExponentChars(s: string)
    requires IsExponent(s)
    ensures AllNumberChars(s)
  {
    if s != "" {
      var d := if |s| > 1 && (s[1] == '-' || s[1] == '+') then s[2..] else s[1..];
      DroppedDigits(d);
      assert s == s[..|s| - |d|] + d;
    }
  }

  lemma NumberChars(s: string)
    requires IsNumber(s)
    ensures s != "" && AllNumberChars(s)
  {
    var u := if s != "" && s[0] == '-' then s[1..] else s;
    var f := if u[0] == '0' then u[1..] else DropDigits(u);
    if f != "" && f[0] == '.' {
      ExponentChars(DropDigits(f[1..]));
      DroppedDigits(f[1..]);
      assert f == [f[0]] + f[1..];
    } else {
      ExponentChars(f);
    }
    if u[0] == '0' { assert u == [u[0]] + u[1..]; } else { DroppedDigits(u); }
    assert s == u || s == [s[0]] + u;
  }

  /** A character that can start or continue an unquoted value of the grammar. */
  predicate BareChar(c: char) {
    Printable(c) && !EndsPrimitive(c) && c != '{' && c != '[' && c != '"'
  }

  lemma BareChars(s: string)
    requires IsLiteral(s) || IsNumber(s)
    ensures s != "" && forall i :: 0 <= i < |s| ==> BareChar(s[i])
  {
    if IsNumber(s) { NumberChars(s); }
  }

  lemma {:induction false} ScanBare(js: string, p: nat, s: string)
    requires At(js, p, s)
    requires forall i :: 0 <= i < |s| ==> BareChar(s[i])
    requires AtEnd(js, p + |s|) || EndsPrimitive(js[p + |s|])
    ensures ScanPrimitive(js, p) == Stop(p + |s|)
    decreases |s|
  {
    if s != "" {
      AtIndex(js, p, s, 0);
      AtDrop(js, p, s, 1);
      ScanBare(js, p + 1, s[1..]);
    }
  }

  lemma ScanFourHex(js: string, p: nat)
    requires p + 4 <= |js|
    requires forall i :: p <= i < p + 4 ==> IsHex(js[i])
    ensures ScanHex(js, p, 0) == Stop(p + 4)
  {
    assert ScanHex(js, p + 4, 4) == Stop(p + 4);
    assert ScanHex(js, p + 3, 3) == Stop(p + 4);
    assert ScanHex(js, p + 2, 2) == Stop(p + 4);
    assert ScanHex(js, p + 1, 1) == Stop(p + 4);
  }

  lemma {:induction false} ScanBody(js: string, p: nat, s: string)
    requires At(js, p, s + "\"")
    requires IsStringBody(s)
    ensures ScanString(js, p) == Stop(p + |s|)
    decreases |s|
  {
    hide At;
    AtSplit(js, p, s, "\"");
    AtIndex(js, p + |s|, "\"", 0);
    if s != "" {
      AtIndex(js, p, s, 0);
      if |s| >= 2 { JsmnLexis.ClassesAre(s[1]); }
      var k := if s[0] != '\\' then 1 else if |s| >= 2 && IsSimpleEscape(s[1]) then 2 else 6;
      if k > 1 { AtIndex(js, p, s, 1); }
      if k == 6 {
        forall i | p + 2 <= i < p + 6 ensures IsHex(js[i]) {
          AtIndex(js, p, s, i - p);
          JsmnLexis.ClassesAre(js[i]);
        }
        ScanFourHex(js, p + 2);
      }
      AtDrop(js, p, s, k);
      AtSplit(js, p + k, s[k..], "\"");
      ScanBody(js, p + k, s[k..]);
    }
  }

  // ---------- token list lemmas ----------

  ghost predicate AllClosed(toks: seq<Token>) {
    forall i :: 0 <= i < |toks| ==> !IsOpen(toks[i])
  }

  lemma {:induction false} TokensClosed(v: Json, p: nat)
    ensures AllClosed(Tokens(v, p))
    decreases v
  {
    match v
    case Bare(_) =>
    case Quoted(_) =>
    case ArrayOf(_, items) => ItemTokensClosed(items, p + 1);
    case ObjectOf(_, members) => MemberTokensClosed(members, p + 1);
  }

  lemma {:induction false} ItemTokensClosed(items: seq<Item>, p: nat)
    ensures AllClosed(ItemTokens(items, p))
    decreases items
  {
    if items != [] {
      var q := p + |items[0].before|;
      TokensClosed(items[0].value, q);
      ItemTokensClosed(items[1..], q + |Text(items[0].value)| + |items[0].after| + 1);
    }
  }

  lemma {:induction false} MemberTokensClosed(members: seq<Member>, p: nat)
    ensures AllClosed(MemberTokens(members, p))
    decreases members
  {
    if members != [] {
      var m := members[0];
      var q := p + |KeyText(m)|;
      TokensClosed(m.value, q);
      MemberTokensClosed(members[1..], q + |Text(m.value)| + |m.after| + 1);
    }
  }

  /** Sizes and closed tokens behind do not change which token is the last open one. */
  lemma LastOpenIs(toks: seq<Token>, i: int)
    requires -1 <= i < |toks|
    requires i >= 0 ==> IsOpen(toks[i])
    requires forall j :: i < j < |toks| ==> !IsOpen(toks[j])
    ensures LastOpen(toks, |toks|) == i
  {
  }

  // ---------- running over a text ----------

  lemma OneStep(js: string, st: State, cap: nat)
    requires Valid(st) && !AtEnd(js, st.pos)
    requires Step(js, st, cap).Next?
    ensures Run(js, st, cap) == Run(js, Step(js, st, cap).st, cap)
  {
  }

  lemma RunOpen(js: string, st: State, kind: Kind, cap: nat)
    requires Valid(st) && !AtEnd(js, st.pos) && |st.toks| < cap
    requires js[st.pos] == (if kind == Object then '{' else '[') && (kind == Object || kind == Array)
    ensures Run(js, st, cap) == Run(js, Open(st, kind, cap).st, cap)
  {
    OneStep(js, st, cap);
  }

  lemma RunComma(js: string, st: State, cap: nat)
    requires Valid(st) && !AtEnd(js, st.pos) && js[st.pos] == ','
    ensures Run(js, st, cap) == Run(js, Comma(st), cap)
  {
    OneStep(js, st, cap);
  }

  lemma RunColon(js: string, st: State, cap: nat)
    requires Valid(st) && !AtEnd(js, st.pos) && js[st.pos] == ':'
    ensures Run(js, st, cap) == Run(js, State(st.pos + 1, st.toks, |st.toks| - 1), cap)
  {
    hide Run;
    OneStep(js, st, cap);
  }

  lemma RunBare(js: string, st: State, text: string, cap: nat)
    requires Valid(st) && (IsLiteral(text) || IsNumber(text))
    requires At(js, st.pos, text) && (AtEnd(js, st.pos + |text|) || EndsPrimitive(js[st.pos + |text|]))
    requires |st.toks| < cap
    ensures Run(js, st, cap) ==
            Run(js, State(st.pos + |text|,
                          Bump(st.toks, st.super) + [Token(Primitive, st.pos, st.pos + |text|, 0)], st.super), cap)
  {
    hide ScanPrimitive, IsNumber, IsLiteral, At, AllNumberChars, Run;
    BareChars(text);
    AtIndex(js, st.pos, text, 0);
    ScanBare(js, st.pos, text);
    OneStep(js, st, cap);
  }

  lemma RunBlank(js: string, st: State, cap: nat)
    requires Valid(st) && !AtEnd(js, st.pos) && IsBlank(js[st.pos])
    ensures Valid(st.(pos := st.pos + 1)) && Run(js, st, cap) == Run(js, st.(pos := st.pos + 1), cap)
  {
    hide Run, LastOpen;
    OneStep(js, st, cap);
  }

  lemma {:induction false} RunBlanks(js: string, st: State, w: string, cap: nat)
    requires Valid(st) && At(js, st.pos, w) && Blanks(w)
    ensures Run(js, st, cap) == Run(js, st.(pos := st.pos + |w|), cap)
    decreases |w|
  {
    hide At, Run, Valid;
    if w != "" {
      AtIndex(js, st.pos, w, 0);
      AtDrop(js, st.pos, w, 1);
      JsmnLexis.ClassesAre(w[0]);
      RunBlank(js, st, cap);
      RunBlanks(js, st.(pos := st.pos + 1), w[1..], cap);
    }
  }

  /** The state after the text of a value: a leaf leaves the superior token, a bracket resets it. */
  ghost function After(st: State, v: Json): State
    requires Valid(st)
  {
    State(st.pos + |Text(v)|, Bump(st.toks, st.super) + Tokens(v, st.pos),
          if v.Bare? || v.Quoted? then st.super else LastOpen(st.toks, |st.toks|))
  }

  /** What may follow the text of a value: an unquoted one must be delimited. */
  ghost predicate Delimited(js: string, p: nat, v: Json) {
    v.Bare? ==> p >= |js| || js[p] in "\0 \t\n\r,:]}"
  }

  lemma {:induction false} RunValue(js: string, st: State, v: Json, cap: nat)
    requires Valid(st) && WellFormed(v)
    requires At(js, st.pos, Text(v)) && Delimited(js, st.pos + |Text(v)|, v)
    requires |st.toks| + |Tokens(v, st.pos)| <= cap
    ensures Run(js, st, cap) == Run(js, After(st, v), cap)
    decreases v, 1
  {
    hide Run, IsNumber;
    match v
    case Bare(text) => RunBare(js, st, text, cap);
    case Quoted(body) => RunQuoted(js, st, body, cap);
    case ArrayOf(blank, items) => RunArray(js, st, blank, items, cap);
    case ObjectOf(blank, members) => RunObject(js, st, blank, members, cap);
  }

  lemma {:induction false} RunArray(js: string, st: State, blank: string, items: seq<Item>, cap: nat)
    requires Valid(st) && Blanks(blank) && WellFormedItems(items)
    requires At(js, st.pos, Text(ArrayOf(blank, items)))
    requires |st.toks| + |Tokens(ArrayOf(blank, items), st.pos)| <= cap
    ensures Run(js, st, cap) == Run(js, After(st, ArrayOf(blank, items)), cap)
    decreases items, 1
  {
    hide At, Run, WellFormedItems;
    var v := ArrayOf(blank, items);
    var a := |st.toks|;
    var inner := if items == [] then blank else ItemsText(items);
    Regroup("[", inner, "]");
    AtSplit(js, st.pos, "[", inner + "]");
    AtIndex(js, st.pos, "[", 0);
    RunOpen(js, st, Array, cap);
    var st1 := Open(st, Array, cap).st;
    LastOpenIs(st1.toks, a);
    if items == [] {
      RunEmpty(js, st1, blank, "]", a, cap);
    } else {
      RunItems(js, st1, items, cap);
    }
    FilledIsAfter(st, v, st1, |items|, ItemTokens(items, st1.pos));
  }

  lemma {:induction false} RunObject(js: string, st: State, blank: string, members: seq<Member>, cap: nat)
    requires Valid(st) && Blanks(blank) && WellFormedMembers(members)
    requires At(js, st.pos, Text(ObjectOf(blank, members)))
    requires |st.toks| + |Tokens(ObjectOf(blank, members), st.pos)| <= cap
    ensures Run(js, st, cap) == Run(js, After(st, ObjectOf(blank, members)), cap)
    decreases members, 1
  {
    hide At, Run, WellFormedMembers;
    var v := ObjectOf(blank, members);
    var a := |st.toks|;
    var inner := if members == [] then blank else MembersText(members);
    Regroup("{", inner, "}");
    AtSplit(js, st.pos, "{", inner + "}");
    AtIndex(js, st.pos, "{", 0);
    RunOpen(js, st, Object, cap);
    var st1 := Open(st, Object, cap).st;
    LastOpenIs(st1.toks, a);
    if members == [] {
      RunEmpty(js, st1, blank, "}", a, cap);
    } else {
      RunMembers(js, st1, members, cap);
    }
    FilledIsAfter(st, v, st1, |members|, MemberTokens(members, st1.pos));
  }

  lemma RunEmpty(js: string, st: State, blank: string, bracket: string, a: int, cap: nat)
    requires Inside(st, a, Array) || Inside(st, a, Object)
    requires bracket == if st.toks[a].kind == Array then "]" else "}"
    requires Blanks(blank) && At(js, st.pos, blank + bracket)
    ensures Run(js, st, cap) == Run(js, Filled(st.toks, a, 0, [], st.pos + |blank| + 1), cap)
  {
    hide At, Run;
    AtSplit(js, st.pos, blank, bracket);
    AtIndex(js, st.pos + |blank|, bracket, 0);
    RunBlanks(js, st, blank, cap);
    RunClose(js, st.(pos := st.pos + |blank|), a, cap);
    FilledWithNone(st.toks, a, st.pos + |blank| + 1);
  }

  lemma Regroup(a: string, b: string, c: string)
    ensures a + b + c == a + (b + c)
  {
  }

  /** A string becomes one token with no children. */
  lemma RunQuoted(js: string, st: State, body: string, cap: nat)
    requires Valid(st) && IsStringBody(body)
    requires At(js, st.pos, "\"" + body + "\"")
    requires |st.toks| < cap
    ensures Run(js, st, cap) ==
            Run(js, State(st.pos + |body| + 2,
                          Bump(st.toks, st.super) + [Token(String, st.pos + 1, st.pos + 1 + |body|, 0)], st.super), cap)
  {
    hide At, IsStringBody, ScanString, Run, Bump;
    Regroup("\"", body, "\"");
    AtSplit(js, st.pos, "\"", body + "\"");
    AtIndex(js, st.pos, "\"", 0);
    ScanBody(js, st.pos + 1, body);
    RunString(js, st, st.pos + 1 + |body|, cap);
  }

  lemma RunString(js: string, st: State, q: nat, cap: nat)
    requires Valid(st) && !AtEnd(js, st.pos) && js[st.pos] == '"'
    requires ScanString(js, st.pos + 1) == Stop(q)
    requires |st.toks| < cap
    ensures Run(js, st, cap) ==
            Run(js, State(q + 1, Bump(st.toks, st.super) + [Token(String, st.pos + 1, q, 0)], st.super), cap)
  {
    hide ScanString, Run;
    OneStep(js, st, cap);
  }

  // ---------- inside a bracket ----------

  ghost function Grown(toks: seq<Token>, a: int, n: nat): seq<Token>
    requires 0 <= a < |toks|
  {
    toks[a := toks[a].(size := toks[a].size + n)]
  }

  /** The open container with index a has received n children with tokens `inner` and ends at `end`. */
  ghost function Filled(toks: seq<Token>, a: int, n: nat, inner: seq<Token>, end: nat): State
    requires 0 <= a < |toks|
  {
    var grown := Grown(toks, a, n);
    State(end, grown[a := grown[a].(end := end)] + inner, LastOpen(toks, a))
  }

  ghost predicate Inside(st: State, a: int, kind: Kind) {
    && Valid(st)
    && 0 <= a < |st.toks|
    && LastOpen(st.toks, |st.toks|) == a
    && st.toks[a].kind == kind
  }

  lemma FilledIsAfter(st: State, v: Json, st1: State, n: nat, inner: seq<Token>)
    requires Valid(st)
    requires v.ArrayOf? || v.ObjectOf?
    requires var t := Tokens(v, st.pos)[0];
             && st1.toks == Bump(st.toks, st.super) + [t.(end := -1, size := 0)]
             && t.size == n && t.end == st.pos + |Text(v)| && Tokens(v, st.pos) == [t] + inner
    ensures Filled(st1.toks, |st.toks|, n, inner, st.pos + |Text(v)|) == After(st, v)
  {
    hide Text, Tokens, LastOpen;
    var s := Filled(st1.toks, |st.toks|, n, inner, st.pos + |Text(v)|);
    assert s.toks == After(st, v).toks;
    SameOpen(st.toks, st1.toks, |st.toks|);
  }

  lemma {:induction false} SameOpen(toks: seq<Token>, toks': seq<Token>, n: nat)
    requires n <= |toks| && n <= |toks'|
    requires forall i :: 0 <= i < n ==> IsOpen(toks[i]) == IsOpen(toks'[i])
    ensures LastOpen(toks, n) == LastOpen(toks', n)
  {
    if n > 0 { SameOpen(toks, toks', n - 1); }
  }

  lemma RunClose(js: string, st: State, a: int, cap: nat)
    requires Inside(st, a, Array) || Inside(st, a, Object)
    requires st.pos < |js| && js[st.pos] == (if st.toks[a].kind == Array then ']' else '}')
    ensures Run(js, st, cap) ==
            Run(js, State(st.pos + 1, st.toks[a := st.toks[a].(end := st.pos + 1)], LastOpen(st.toks, a)), cap)
  {
    hide Run, LastOpen;
    var toks := st.toks[a := st.toks[a].(end := st.pos + 1)];
    SameOpen(st.toks, toks, a);
    SkipClosed(toks, a);
    OneStep(js, st, cap);
  }

  lemma SkipClosed(toks: seq<Token>, a: nat)
    requires a < |toks| && !IsOpen(toks[a])
    ensures LastOpen(toks, a + 1) == LastOpen(toks, a)
  {
  }

  /** A value inside a container: it grows its parent, and the container is still the last open token. */
  lemma {:induction false} RunChild(js: string, st: State, v: Json, a: int, kind: Kind, cap: nat)
    requires Inside(st, a, kind) && WellFormed(v) && st.super >= 0
    requires At(js, st.pos, Text(v)) && Delimited(js, st.pos + |Text(v)|, v)
    requires |st.toks| + |Tokens(v, st.pos)| <= cap
    ensures Run(js, st, cap) == Run(js, After(st, v), cap)
    ensures Inside(After(st, v), a, kind)
    ensures After(st, v).super in {st.super, a}
    decreases v, 2
  {
    RunValue(js, st, v, cap);
    TokensClosed(v, st.pos);
    LastOpenIs(After(st, v).toks, a);
  }

  /** One array element with the blanks around it. */
  lemma {:induction false} RunItem(js: string, st: State, it: Item, tail: string, cap: nat)
    requires Inside(st, st.super, Array)
    requires Blanks(it.before) && WellFormed(it.value) && Blanks(it.after)
    requires tail != "" && EndsPrimitive(tail[0])
    requires At(js, st.pos, it.before + (Text(it.value) + (it.after + tail)))
    requires |st.toks| + |Tokens(it.value, st.pos + |it.before|)| <= cap
    ensures var q := st.pos + |it.before|;
            var st' := State(q + |Text(it.value)| + |it.after|, Bump(st.toks, st.super)
              + Tokens(it.value, q), st.super);
            Run(js, st, cap) == Run(js, st', cap) && Inside(st', st.super, Array) && At(js, st'.pos, tail)
    decreases it
  {
    hide At, Run, Tokens, Text, WellFormed;
    var v := it.value;
    AtSplit(js, st.pos, it.before, Text(v) + (it.after + tail));
    RunBlanks(js, st, it.before, cap);
    var st1 := st.(pos := st.pos + |it.before|);
    AtSplit(js, st1.pos, Text(v), it.after + tail);
    AtIndex(js, st1.pos + |Text(v)|, it.after + tail, 0);
    RunChild(js, st1, v, st.super, Array, cap);
    var st2 := After(st1, v);
    AtSplit(js, st2.pos, it.after, tail);
    RunBlanks(js, st2, it.after, cap);
  }

  /** What follows the first element and its blanks. */
  function ItemsTail(items: seq<Item>): string
    requires items != []
  {
    if |items| == 1 then "]" else "," + (ItemsText(items[1..]) + "]")
  }

  lemma FirstItem(items: seq<Item>, p: nat)
    requires items != [] && WellFormedItems(items)
    ensures var it := items[0];
            && Blanks(it.before) && WellFormed(it.value) && Blanks(it.after) && WellFormedItems(items[1..])
            && ItemsText(items) + "]" == it.before + (Text(it.value) + (it.after + ItemsTail(items)))
    ensures var it := items[0];
            var q := p + |it.before|;
            var r := q + |Text(it.value)| + |it.after|;
            && ItemTokens(items, p) == Tokens(it.value, q) + ItemTokens(items[1..], r + 1)
            && p + |ItemsText(items)| + 1 == r + |ItemsTail(items)|
  {
    hide Text, Tokens, WellFormed;
  }

  lemma {:induction false} RunItems(js: string, st: State, items: seq<Item>, cap: nat)
    requires Inside(st, st.super, Array) && items != [] && WellFormedItems(items)
    requires At(js, st.pos, ItemsText(items) + "]")
    requires |st.toks| + |ItemTokens(items, st.pos)| <= cap
    ensures Run(js, st, cap) ==
            Run(js, Filled(st.toks, st.super, |items|, ItemTokens(items, st.pos), st.pos + |ItemsText(items)| + 1), cap)
    decreases items, 0
  {
    hide At, Run, Tokens, Text, WellFormed, ItemsText, ItemTokens, WellFormedItems, Filled, LastOpen;
    var a, it, rest := st.super, items[0], items[1..];
    FirstItem(items, st.pos);
    RunItem(js, st, it, ItemsTail(items), cap);
    var q := st.pos + |it.before|;
    var st3 := State(q + |Text(it.value)| + |it.after|, Bump(st.toks, a) + Tokens(it.value, q), a);
    AtIndex(js, st3.pos, ItemsTail(items), 0);
    var end := st.pos + |ItemsText(items)| + 1;
    FilledInSteps(st.toks, a, Tokens(it.value, q), |rest|, ItemTokens(rest, st3.pos + 1), end);
    if |items| == 1 {
      NoItems(st3.pos + 1);
      RunClose(js, st3, a, cap);
      FilledWithNone(st3.toks, a, end);
    } else {
      RunComma(js, st3, cap);
      AtSplit(js, st3.pos, ",", ItemsText(rest) + "]");
      RunItems(js, Comma(st3), rest, cap);
    }
  }

  lemma NoItems(p: nat)
    ensures ItemTokens([], p) == []
  {
  }

  lemma FilledWithNone(toks: seq<Token>, a: int, end: nat)
    requires 0 <= a < |toks|
    ensures Filled(toks, a, 0, [], end) == State(end, toks[a := toks[a].(end := end)], LastOpen(toks, a))
  {
    assert Filled(toks, a, 0, [], end).toks == toks[a := toks[a].(end := end)];
  }

  /** One child and then the others is the same as all the children. */
  lemma FilledInSteps(toks: seq<Token>, a: int, first: seq<Token>, n: nat, others: seq<Token>, end: nat)
    requires 0 <= a < |toks|
    ensures Filled(Bump(toks, a) + first, a, n, others, end) == Filled(toks, a, n + 1, first + others, end)
  {
    SameOpen(toks, Bump(toks, a) + first, a);
    assert Filled(Bump(toks, a) + first, a, n, others, end).toks == Filled(toks, a, n + 1, first + others, end).toks;
  }

  /** A member name and its colon: the name is a new child of the object and becomes the superior token. */
  lemma RunKey(js: string, st: State, m: Member, cap: nat)
    requires Inside(st, st.super, Object)
    requires Blanks(m.before) && IsStringBody(m.key) && Blanks(m.beforeColon) && Blanks(m.afterColon)
    requires At(js, st.pos, KeyText(m))
    requires |st.toks| < cap
    ensures var k := st.pos + |m.before|;
            var toks := Bump(st.toks, st.super) + [Token(String, k + 1, k + 1 + |m.key|, 0)];
            Run(js, st, cap) == Run(js, State(st.pos + |KeyText(m)|, toks, |st.toks|), cap)
  {
    hide At, Run, IsStringBody;
    var quoted := "\"" + m.key + "\"";
    assert KeyText(m) == m.before + (quoted + (m.beforeColon + (":" + m.afterColon)));
    AtSplit(js, st.pos, m.before, quoted + (m.beforeColon + (":" + m.afterColon)));
    RunBlanks(js, st, m.before, cap);
    var st1 := st.(pos := st.pos + |m.before|);
    AtSplit(js, st1.pos, quoted, m.beforeColon + (":" + m.afterColon));
    RunQuoted(js, st1, m.key, cap);
    var st2 := State(st1.pos + |quoted|, Bump(st.toks, st.super)
      + [Token(String, st1.pos + 1, st1.pos + 1 + |m.key|, 0)], st.super);
    AtSplit(js, st2.pos, m.beforeColon, ":" + m.afterColon);
    RunBlanks(js, st2, m.beforeColon, cap);
    var st3 := st2.(pos := st2.pos + |m.beforeColon|);
    AtSplit(js, st3.pos, ":", m.afterColon);
    AtIndex(js, st3.pos, ":", 0);
    RunColon(js, st3, cap);
    RunBlanks(js, State(st3.pos + 1, st3.toks, |st.toks|), m.afterColon, cap);
  }

  /** One object member: its name and its value, with the blanks around them. */
  lemma {:induction false} RunMember(js: string, st: State, m: Member, tail: string, cap: nat) returns (super: int)
    requires Inside(st, st.super, Object)
    requires Blanks(m.before) && IsStringBody(m.key) && Blanks(m.beforeColon)
    requires Blanks(m.afterColon) && WellFormed(m.value) && Blanks(m.after)
    requires tail != "" && EndsPrimitive(tail[0])
    requires At(js, st.pos, KeyText(m) + (Text(m.value) + (m.after + tail)))
    requires |st.toks| + 1 + |Tokens(m.value, st.pos + |KeyText(m)|)| <= cap
    ensures var k, q := st.pos + |m.before|, st.pos + |KeyText(m)|;
            var toks := Bump(st.toks, st.super) + ([Token(String, k + 1, k + 1 + |m.key|, 1)] + Tokens(m.value, q));
            var st' := State(q + |Text(m.value)| + |m.after|, toks, super);
            && super in {|st.toks|, st.super}
            && Inside(st', st.super, Object) && At(js, st'.pos, tail)
            && Run(js, st, cap) == Run(js, st', cap)
    decreases m
  {
    hide At, Run, Tokens, Text, WellFormed, KeyText, IsStringBody;
    var a, v := st.super, m.value;
    AtSplit(js, st.pos, KeyText(m), Text(v) + (m.after + tail));
    RunKey(js, st, m, cap);
    var k := st.pos + |m.before|;
    var key := Token(String, k + 1, k + 1 + |m.key|, 0);
    var st1 := State(st.pos + |KeyText(m)|, Bump(st.toks, a) + [key], |st.toks|);
    LastOpenIs(st1.toks, a);
    AtSplit(js, st1.pos, Text(v), m.after + tail);
    AtIndex(js, st1.pos + |Text(v)|, m.after + tail, 0);
    RunChild(js, st1, v, a, Object, cap);
    var st2 := After(st1, v);
    assert st2.toks == Bump(st.toks, a) + ([key.(size := 1)] + Tokens(v, st1.pos));
    AtSplit(js, st2.pos, m.after, tail);
    RunBlanks(js, st2, m.after, cap);
    super := st2.super;
  }

  /** What follows the first member and its blanks. */
  function MembersTail(members: seq<Member>): string
    requires members != []
  {
    if |members| == 1 then "}" else "," + (MembersText(members[1..]) + "}")
  }

  function KeyToken(m: Member, p: nat, size: nat): Token {
    Token(String, p + |m.before| + 1, p + |m.before| + 1 + |m.key|, size)
  }

  lemma FirstMember(members: seq<Member>, p: nat)
    requires members != [] && WellFormedMembers(members)
    ensures var m := members[0];
            && Blanks(m.before) && IsStringBody(m.key) && Blanks(m.beforeColon) && Blanks(m.afterColon)
            && WellFormed(m.value) && Blanks(m.after) && WellFormedMembers(members[1..])
            && MembersText(members) + "}" == KeyText(m) + (Text(m.value) + (m.after + MembersTail(members)))
    ensures var m := members[0];
            var q := p + |KeyText(m)|;
            var r := q + |Text(m.value)| + |m.after|;
            && MemberTokens(members, p) ==
              ([KeyToken(m, p, 1)] + Tokens(m.value, q)) + MemberTokens(members[1..], r + 1)
            && p + |MembersText(members)| + 1 == r + |MembersTail(members)|
  {
    hide Text, Tokens, WellFormed, KeyText, IsStringBody;
  }

  lemma {:induction false} RunMembers(js: string, st: State, members: seq<Member>, cap: nat)
    requires Inside(st, st.super, Object) && members != [] && WellFormedMembers(members)
    requires At(js, st.pos, MembersText(members) + "}")
    requires |st.toks| + |MemberTokens(members, st.pos)| <= cap
    ensures Run(js, st, cap) ==
            Run(js, Filled(st.toks, st.super, |members|, MemberTokens(members, st.pos), st.pos
              + |MembersText(members)| + 1), cap)
    decreases members, 0
  {
    hide At, Run, Tokens, Text, WellFormed, KeyText, IsStringBody, LastOpen, LastOpenContainer, Comma,
      MembersText, MemberTokens, WellFormedMembers, Filled;
    var a, m, rest := st.super, members[0], members[1..];
    FirstMember(members, st.pos);
    var super := RunMember(js, st, m, MembersTail(members), cap);
    var q := st.pos + |KeyText(m)|;
    var first := [KeyToken(m, st.pos, 1)] + Tokens(m.value, q);
    var st3 := State(q + |Text(m.value)| + |m.after|, Bump(st.toks, a) + first, super);
    AtIndex(js, st3.pos, MembersTail(members), 0);
    var end := st.pos + |MembersText(members)| + 1;
    FilledInSteps(st.toks, a, first, |rest|, MemberTokens(rest, st3.pos + 1), end);
    if |members| == 1 {
      NoMembers(st3.pos + 1);
      RunClose(js, st3, a, cap);
      FilledWithNone(st3.toks, a, end);
    } else {
      RunComma(js, st3, cap);
      KeyIsString(Bump(st.toks, a), KeyToken(m, st.pos, 1), Tokens(m.value, q));
      CommaBackInside(st3, a);
      AtSplit(js, st3.pos, ",", MembersText(rest) + "}");
      RunMembers(js, Comma(st3), rest, cap);
    }
  }

  lemma KeyIsString(toks: seq<Token>, key: Token, others: seq<Token>)
    ensures (toks + ([key] + others))[|toks|] == key
  {
  }

  lemma NoMembers(p: nat)
    ensures MemberTokens([], p) == []
  {
  }

  /** After a comma the enclosing object is the superior token again, whether it was that or a member name before. */
  lemma CommaBackInside(st: State, a: int)
    requires Inside(st, a, Object)
    requires st.super == a || (st.super >= 0 && st.toks[st.super].kind == String)
    ensures Comma(st) == State(st.pos + 1, st.toks, a)
  {
  }

  // ---------- the round trip ----------

  /** JSON-text = ws value ws, ended by the end of the buffer or by a NUL. */
  ghost predicate IsDocument(js: string, lead: string, v: Json, trail: string, rest: string) {
    && Blanks(lead) && WellFormed(v) && Blanks(trail)
    && js == lead + Text(v) + trail + rest
    && (rest == "" || rest[0] == '\0')
  }

  /**
   With enough tokens, parsing the text of any JSON value gives exactly its
   preorder token list and the number of its tokens.
   */
  lemma DocumentRoundTrip(js: string, lead: string, v: Json, trail: string, rest: string, cap: nat)
    requires IsDocument(js, lead, v, trail, rest)
    requires |Tokens(v, |lead|)| <= cap
    ensures var toks := Tokens(v, |lead|);
            Run(js, INIT, cap) == Result(|toks|, State(|lead| + |Text(v)| + |trail|, toks, -1))
  {
    hide Run, Text, WellFormed, Tokens, At, LastOpen;
    var n := |lead| + |Text(v)| + |trail|;
    AtBegin(js, lead + (Text(v) + trail), rest);
    AtSplit(js, 0, lead, Text(v) + trail);
    AtSplit(js, |lead|, Text(v), trail);
    RunBlanks(js, INIT, lead, cap);
    var st1 := INIT.(pos := |lead|);
    if trail != "" { AtIndex(js, |lead| + |Text(v)|, trail, 0); }
    RunValue(js, st1, v, cap);
    var st2 := After(st1, v);
    RunBlanks(js, st2, trail, cap);
    RunEnds(js, st2.(pos := n), cap) by {
      TokensClosed(v, |lead|);
      LastOpenIs(st2.toks, -1);
    }
  }

  lemma RunEnds(js: string, st: State, cap: nat)
    requires Valid(st) && AtEnd(js, st.pos) && LastOpen(st.toks, |st.toks|) == -1
    ensures Run(js, st, cap) == Result(|st.toks|, st)
  {
  }
}
