/**
 The JSON tokenizer as a state machine over its text: one step per iteration of
 the main loop of jsmn_parse, in the variant without strict mode and parent links.

 A state holds the position, the tokens allocated so far (the first `toknext`
 entries of the caller's array) and the superior token.
 */
module JsmnModel {

  datatype Kind = Undefined | Object | Array | String | Primitive

  datatype Token = Token(kind: Kind, start: int, end: int, size: nat)

  datatype State = State(pos: nat, toks: seq<Token>, super: int)

  const ERROR_NOMEM := -1
  const ERROR_INVAL := -2
  const ERROR_PART := -3

  const INIT := State(0, [], -1)

  datatype Outcome = Next(st: State) | Fail(code: int)

  datatype Result = Result(code: int, st: State)

  ghost predicate Valid(st: State) {
    -1 <= st.super < |st.toks|
  }

  // ---------- lexical scans ----------

  predicate AtEnd(js: string, p: nat) {
    p >= |js| || js[p] == '\0'
  }

  predicate IsBlank(c: char) {
    c == '\t' || c == '\r' || c == '\n' || c == ' '
  }

  /** The characters that end an unquoted value. */
  predicate EndsPrimitive(c: char) {
    IsBlank(c) || c == ':' || c == ',' || c == ']' || c == '}'
  }

  predicate Printable(c: char) {
    32 <= c as int < 127
  }

  predicate IsHex(c: char) {
    '0' <= c <= '9' || 'A' <= c <= 'F' || 'a' <= c <= 'f'
  }

  predicate IsSimpleEscape(c: char) {
    c == '"' || c == '/' || c == '\\' || c == 'b' || c == 'f' || c == 'r' || c == 'n' || c == 't'
  }

  datatype Scan = Stop(at: nat) | Bad | Unfinished

  /** Where an unquoted value that is read from p on ends. */
  function ScanPrimitive(js: string, p: nat): (r: Scan)
    ensures !r.Unfinished?
    ensures r.Stop? ==> p <= r.at
    decreases |js| - p
  {
    if AtEnd(js, p) || EndsPrimitive(js[p]) then Stop(p)
    else if !Printable(js[p]) then Bad
    else ScanPrimitive(js, p + 1)
  }

  /** The position after at most 4 - i hexadecimal digits. */
  function ScanHex(js: string, p: nat, i: nat): (r: Scan)
    requires i <= 4
    ensures r.Stop? ==> p <= r.at
    decreases 4 - i
  {
    if i < 4 && !AtEnd(js, p) then
      if IsHex(js[p]) then ScanHex(js, p + 1, i + 1) else Bad
    else Stop(p)
  }

  /** Where the closing quote of a string is whose text is read from p on. */
  function ScanString(js: string, p: nat): (r: Scan)
    ensures r.Stop? ==> p <= r.at < |js|
    decreases |js| - p
  {
    if AtEnd(js, p) then Unfinished
    else if js[p] == '"' then Stop(p)
    else if js[p] == '\\' && p + 1 < |js| then
      if IsSimpleEscape(js[p + 1]) then ScanString(js, p + 2)
      else if js[p + 1] == 'u' then
        match ScanHex(js, p + 2, 0)
        case Stop(q) => ScanString(js, q)
        case _ => Bad
      else Bad
    else ScanString(js, p + 1)
  }

  // ---------- tokens ----------

  predicate IsOpen(t: Token) {
    t.start != -1 && t.end == -1
  }

  predicate IsContainer(t: Token) {
    t.kind == Array || t.kind == Object
  }

  /** The last open token below index n, or -1. */
  function LastOpen(toks: seq<Token>, n: nat): (i: int)
    requires n <= |toks|
    ensures -1 <= i < n
    ensures i >= 0 ==> IsOpen(toks[i])
    ensures forall j :: i < j < n ==> !IsOpen(toks[j])
  {
    if n == 0 then -1 else if IsOpen(toks[n - 1]) then n - 1 else LastOpen(toks, n - 1)
  }

  /** The last open array or object below index n, or -1. */
  function LastOpenContainer(toks: seq<Token>, n: nat): (i: int)
    requires n <= |toks|
    ensures -1 <= i < n
    ensures i >= 0 ==> IsOpen(toks[i]) && IsContainer(toks[i])
    ensures forall j :: i < j < n ==> !(IsOpen(toks[j]) && IsContainer(toks[j]))
  {
    if n == 0 then -1
    else if IsContainer(toks[n - 1]) && IsOpen(toks[n - 1]) then n - 1
    else LastOpenContainer(toks, n - 1)
  }

  /** One more child for the token with index i, if there is one. */
  function Bump(toks: seq<Token>, i: int): seq<Token>
    requires -1 <= i < |toks|
  {
    if i == -1 then toks else toks[i := toks[i].(size := toks[i].size + 1)]
  }

  // ---------- one iteration ----------

  /** A string or an unquoted value becomes a token and the next character is at `next`. */
  function Emit(st: State, t: Token, next: nat, cap: nat): Outcome
    requires Valid(st)
  {
    if |st.toks| >= cap then Fail(ERROR_NOMEM)
    else Next(State(next, Bump(st.toks, st.super) + [t], st.super))
  }

  function Open(st: State, kind: Kind, cap: nat): Outcome
    requires Valid(st)
  {
    if |st.toks| >= cap then Fail(ERROR_NOMEM)
    else Next(State(st.pos + 1, Bump(st.toks, st.super) + [Token(kind, st.pos, -1, 0)], |st.toks|))
  }

  function Close(st: State, kind: Kind): Outcome
    requires Valid(st)
  {
    var i := LastOpen(st.toks, |st.toks|);
    if i == -1 || st.toks[i].kind != kind then Fail(ERROR_INVAL)
    else
      var toks := st.toks[i := st.toks[i].(end := st.pos + 1)];
      Next(State(st.pos + 1, toks, LastOpen(toks, i + 1)))
  }

  function Comma(st: State): State
    requires Valid(st)
  {
    var s := if st.super != -1 && !IsContainer(st.toks[st.super]) then LastOpenContainer(st.toks, |st.toks|) else -1;
    State(st.pos + 1, st.toks, if s == -1 then st.super else s)
  }

  function Step(js: string, st: State, cap: nat): (o: Outcome)
    requires Valid(st) && !AtEnd(js, st.pos)
    ensures o.Next? ==> Valid(o.st) && st.pos < o.st.pos && |st.toks| <= |o.st.toks|
    ensures o.Fail? ==> o.code in {ERROR_NOMEM, ERROR_INVAL, ERROR_PART}
  {
    var c := js[st.pos];
    if c == '{' then Open(st, Object, cap)
    else if c == '[' then Open(st, Array, cap)
    else if c == '}' then Close(st, Object)
    else if c == ']' then Close(st, Array)
    else if c == '"' then
      match ScanString(js, st.pos + 1)
      case Stop(q) => Emit(st, Token(String, st.pos + 1, q, 0), q + 1, cap)
      case Bad => Fail(ERROR_INVAL)
      case Unfinished => Fail(ERROR_PART)
    else if IsBlank(c) then Next(st.(pos := st.pos + 1))
    else if c == ':' then Next(State(st.pos + 1, st.toks, |st.toks| - 1))
    else if c == ',' then Next(Comma(st))
    else
      match ScanPrimitive(js, st.pos)
      case Stop(q) => Emit(st, Token(Primitive, st.pos, q, 0), q, cap)
      case _ => Fail(ERROR_INVAL)
  }

  /** The whole call: the code it returns and the state it leaves. */
  function Run(js: string, st: State, cap: nat): (r: Result)
    requires Valid(st)
    ensures Valid(r.st)
    ensures r.code >= 0 ==> r.code == |r.st.toks|
    ensures r.code < 0 ==> r.code in {ERROR_NOMEM, ERROR_INVAL, ERROR_PART}
    decreases |js| - st.pos
  {
    if AtEnd(js, st.pos) then
      Result(if LastOpen(st.toks, |st.toks|) == -1 then |st.toks| else ERROR_PART, st)
    else
      match Step(js, st, cap)
      case Next(st') => Run(js, st', cap)
      case Fail(code) => Result(code, st)
  }

  /** The call without a token array, which only counts. */
  function CountRun(js: string, p: nat, count: nat): int
    decreases |js| - p
  {
    if AtEnd(js, p) then count
    else
      var c := js[p];
      if c == '{' || c == '[' then CountRun(js, p + 1, count + 1)
      else if c == '"' then
        match ScanString(js, p + 1)
        case Stop(q) => CountRun(js, q + 1, count + 1)
        case Bad => ERROR_INVAL
        case Unfinished => ERROR_PART
      else if EndsPrimitive(c) then CountRun(js, p + 1, count)
      else
        match ScanPrimitive(js, p)
        case Stop(q) => CountRun(js, q, count + 1)
        case _ => ERROR_INVAL
  }

  /** The call without a token array meets a colon outside strings before it ends. */
  predicate MeetsColon(js: string, p: nat)
    decreases |js| - p
  {
    if AtEnd(js, p) then false
    else
      var c := js[p];
      if c == ':' then true
      else if c == '"' then
        match ScanString(js, p + 1)
        case Stop(q) => MeetsColon(js, q + 1)
        case _ => false
      else if c == '{' || c == '[' || EndsPrimitive(c) then MeetsColon(js, p + 1)
      else
        match ScanPrimitive(js, p)
        case Stop(q) => MeetsColon(js, q)
        case _ => false
  }
}
