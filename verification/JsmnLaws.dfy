/**
 What jsmn_parse promises of every text: which texts it accepts, how the ranges
 and sizes of the tokens fit together, how a parse that ran out of tokens goes on
 with more of them, and what counting without tokens says about the parse.
 */
module JsmnLaws {
  import opened JsmnModel

  // ---------- the word of a text ----------

  /** What matters of a text beside its lexical form: its brackets and its leaves. */
  datatype Mark = OpenMark(kind: Kind) | CloseMark(kind: Kind) | LeafMark

  /** How a text ends: complete, at a string or unquoted value that is refused, or in a string that is not closed. */
  datatype Ending = Complete | Refused | CutOff

  datatype Word = Word(marks: seq<Mark>, ending: Ending)

  function Prepend(m: Mark, w: Word): Word {
    Word([m] + w.marks, w.ending)
  }

  /** The marks of the text from p up to its end, its first NUL, or the first string or value that is malformed. */
  function Lex(js: string, p: nat): Word
    decreases |js| - p
  {
    if p >= |js| || js[p] == '\0' then Word([], Complete)
    else
      var c := js[p];
      if c == '{' || c == '[' then Prepend(OpenMark(if c == '{' then Object else Array), Lex(js, p + 1))
      else if c == '}' || c == ']' then Prepend(CloseMark(if c == '}' then Object else Array), Lex(js, p + 1))
      else if c in " \t\n\r,:" then Lex(js, p + 1)
      else if c == '"' then
        match ScanString(js, p + 1)
        case Stop(q) => Prepend(LeafMark, Lex(js, q + 1))
        case Bad => Word([], Refused)
        case Unfinished => Word([], CutOff)
      else
        match ScanPrimitive(js, p)
        case Stop(q) => Prepend(LeafMark, Lex(js, q))
        case _ => Word([], Refused)
  }

  /** The brackets of a word match in kind, below the open brackets of the stack. */
  predicate Balanced(w: seq<Mark>, stack: seq<Kind>) {
    if w == [] then stack == []
    else match w[0]
      case OpenMark(kind) => Balanced(w[1..], stack + [kind])
      case CloseMark(kind) => stack != [] && stack[|stack| - 1] == kind && Balanced(w[1..], stack[..|stack| - 1])
      case LeafMark => Balanced(w[1..], stack)
  }

  /** The number of tokens a word needs. */
  function Needs(w: seq<Mark>): nat {
    if w == [] then 0 else (if w[0].CloseMark? then 0 else 1) + Needs(w[1..])
  }

  /**
   What a word comes to below the open brackets of the stack, with n of cap tokens used: the first mark that
   lacks a token (-1) or its bracket (-2) decides, and otherwise the ending, where brackets that are left open
   count as a text cut off (-3).
   */
  function Verdict(w: Word, stack: seq<Kind>, n: nat, cap: nat): int
    decreases |w.marks|
  {
    if w.marks == [] then
      match w.ending
      case Complete => if stack == [] then n else -3
      case Refused => -2
      case CutOff => -3
    else
      var rest := Word(w.marks[1..], w.ending);
      match w.marks[0]
      case OpenMark(kind) => if n >= cap then -1 else Verdict(rest, stack + [kind], n + 1, cap)
      case CloseMark(kind) =>
        if stack == [] || stack[|stack| - 1] != kind then -2 else Verdict(rest, stack[..|stack| - 1], n, cap)
      case LeafMark => if n >= cap then -1 else Verdict(rest, stack, n + 1, cap)
  }

  /** A verdict is a count exactly for a complete word with matching brackets and enough tokens. */
  lemma {:induction false} VerdictIsCount(w: Word, stack: seq<Kind>, n: nat, cap: nat)
    ensures var v, needs := Verdict(w, stack, n, cap), Needs(w.marks);
            && (v >= 0 <==> w.ending == Complete && Balanced(w.marks, stack) && (needs == 0 || n + needs <= cap))
            && (v >= 0 ==> v == n + needs)
            && (v == -1 ==> n + needs > cap)
    decreases |w.marks|
  {
    if w.marks != [] {
      var rest := Word(w.marks[1..], w.ending);
      match w.marks[0]
      case OpenMark(kind) => if n < cap { VerdictIsCount(rest, stack + [kind], n + 1, cap); }
      case CloseMark(kind) =>
        if stack != [] && stack[|stack| - 1] == kind { VerdictIsCount(rest, stack[..|stack| - 1], n, cap); }
      case LeafMark => if n < cap { VerdictIsCount(rest, stack, n + 1, cap); }
    }
  }

  // ---------- codes ----------

  /** The kinds of the open tokens, outermost first. */
  ghost function OpenKinds(toks: seq<Token>): seq<Kind> {
    if toks == [] then []
    else
      var last := toks[|toks| - 1];
      OpenKinds(toks[..|toks| - 1]) + (if IsOpen(last) then [last.kind] else [])
  }

  lemma {:induction false} SameKinds(a: seq<Token>, b: seq<Token>)
    requires |a| == |b|
    requires forall i :: 0 <= i < |a| ==> IsOpen(a[i]) == IsOpen(b[i]) && a[i].kind == b[i].kind
    ensures OpenKinds(a) == OpenKinds(b)
  {
    if a != [] { SameKinds(a[..|a| - 1], b[..|b| - 1]); }
  }

  lemma KindsOfMore(toks: seq<Token>, super: int, t: Token)
    requires -1 <= super < |toks|
    ensures OpenKinds(Bump(toks, super) + [t]) == OpenKinds(toks) + if IsOpen(t) then [t.kind] else []
  {
    SameKinds(toks, Bump(toks, super));
    assert (Bump(toks, super) + [t])[..|toks|] == Bump(toks, super);
  }

  /** The backward search for an open token finds the top of the stack, and closing that token pops it. */
  lemma {:induction false} CloseIsPop(toks: seq<Token>, end: nat)
    ensures var i := LastOpen(toks, |toks|);
            if i == -1 then OpenKinds(toks) == []
            else
              var kinds := OpenKinds(toks);
              kinds != [] && kinds[|kinds| - 1] == toks[i].kind &&
              OpenKinds(toks[i := toks[i].(end := end)]) == kinds[..|kinds| - 1]
    decreases |toks|
  {
    if toks != [] {
      var n := |toks| - 1;
      var init, i := toks[..n], LastOpen(toks, |toks|);
      if i == n {
        assert toks[i := toks[i].(end := end)][..n] == init;
      } else {
        LastOpenPrefix(toks, n);
        CloseIsPop(init, end);
        if i >= 0 { assert toks[i := toks[i].(end := end)][..n] == init[i := init[i].(end := end)]; }
      }
    }
  }

  lemma {:induction false} LastOpenPrefix(toks: seq<Token>, n: nat)
    requires n <= |toks|
    ensures LastOpen(toks[..n], n) == LastOpen(toks, n)
    decreases n
  {
    if n > 0 && !IsOpen(toks[n - 1]) {
      LastOpenPrefix(toks, n - 1);
      LastOpenPrefix(toks[..n], n - 1);
      assert toks[..n][..n - 1] == toks[..n - 1];
    }
  }

  /** How one iteration changes what is left of the word, the stack and the tokens. */
  lemma StepIsMark(js: string, st: State, cap: nat)
    requires Valid(st) && !AtEnd(js, st.pos)
    requires Step(js, st, cap).Next?
    ensures var st' := Step(js, st, cap).st;
            var w, w' := Lex(js, st.pos), Lex(js, st'.pos);
            || (w == w' && OpenKinds(st'.toks) == OpenKinds(st.toks) && |st'.toks| == |st.toks|)
            || (w == Prepend(LeafMark, w') && OpenKinds(st'.toks) == OpenKinds(st.toks) &&
                |st.toks| < cap && |st'.toks| == |st.toks| + 1)
            || (exists k :: w == Prepend(OpenMark(k), w') && OpenKinds(st'.toks) == OpenKinds(st.toks) + [k] &&
                            |st.toks| < cap && |st'.toks| == |st.toks| + 1)
            || (exists k :: w == Prepend(CloseMark(k), w') && OpenKinds(st.toks) == OpenKinds(st'.toks) + [k] &&
                            |st'.toks| == |st.toks|)
  {
    hide ScanString, ScanPrimitive, OpenKinds, Run;
    var c := js[st.pos];
    var st' := Step(js, st, cap).st;
    if |st'.toks| > |st.toks| {
      KindsOfMore(st.toks, st.super, st'.toks[|st.toks|]);
    } else if c == '}' || c == ']' {
      CloseIsPop(st.toks, st.pos + 1);
      var k := if c == '}' then Object else Array;
      assert OpenKinds(st.toks) == OpenKinds(st'.toks) + [k];
    }
  }

  lemma StepFails(js: string, st: State, cap: nat)
    requires Valid(st) && !AtEnd(js, st.pos)
    requires Step(js, st, cap).Fail?
    ensures Step(js, st, cap).code == Verdict(Lex(js, st.pos), OpenKinds(st.toks), |st.toks|, cap)
  {
    hide ScanString, OpenKinds, Run;
    CloseIsPop(st.toks, st.pos + 1);
  }

  lemma RunUnfolds(js: string, st: State, cap: nat)
    requires Valid(st) && !AtEnd(js, st.pos)
    ensures var o := Step(js, st, cap);
            if o.Fail? then Run(js, st, cap).code == o.code
            else st.pos < o.st.pos && Valid(o.st) && Run(js, st, cap) == Run(js, o.st, cap)
  {
    hide Step, Valid, LastOpen;
  }

  /** Every call, from any parser state, returns the verdict on the word that is left of its text. */
  lemma {:induction false} CodeExactly(js: string, st: State, cap: nat)
    requires Valid(st)
    ensures Run(js, st, cap).code == Verdict(Lex(js, st.pos), OpenKinds(st.toks), |st.toks|, cap)
    decreases |js| - st.pos
  {
    hide Step, Lex, OpenKinds, LastOpen;
    if AtEnd(js, st.pos) {
      CodeAtEnd(js, st, cap);
    } else {
      RunUnfolds(js, st, cap);
      var o := Step(js, st, cap);
      if o.Fail? {
        StepFails(js, st, cap);
      } else {
        CodeExactly(js, o.st, cap);
        StepIsMark(js, st, cap);
        VerdictSteps(Lex(js, st.pos), Lex(js, o.st.pos), OpenKinds(st.toks), OpenKinds(o.st.toks), |st.toks|,
                     |o.st.toks|, cap);
      }
    }
  }

  lemma CodeAtEnd(js: string, st: State, cap: nat)
    requires Valid(st) && AtEnd(js, st.pos)
    ensures Run(js, st, cap).code == Verdict(Lex(js, st.pos), OpenKinds(st.toks), |st.toks|, cap)
  {
    CloseIsPop(st.toks, st.pos + 1);
  }

  lemma VerdictSteps(w: Word, w': Word, stack: seq<Kind>, stack': seq<Kind>, n: nat, n': nat, cap: nat)
    requires || (w == w' && stack' == stack && n' == n)
             || (w == Prepend(LeafMark, w') && stack' == stack && n < cap && n' == n + 1)
             || (exists k :: w == Prepend(OpenMark(k), w') && stack' == stack + [k] && n < cap && n' == n + 1)
             || (exists k :: w == Prepend(CloseMark(k), w') && stack == stack' + [k] && n' == n)
    ensures Verdict(w, stack, n, cap) == Verdict(w', stack', n', cap)
  {
    if w != w' {
      assert w.marks[1..] == w'.marks;
      if w.marks[0].CloseMark? { assert stack[..|stack| - 1] == stack'; }
    }
  }

  /**
   jsmn_parse returns a count exactly when, up to the first NUL, strings and unquoted values are
   well formed, the brackets outside them match in kind, and there are enough tokens; the count is
   the number of brackets opened and leaves.
   */
  lemma AcceptsExactly(js: string, cap: nat)
    ensures var w := Lex(js, 0);
            && (Run(js, INIT, cap).code >= 0 <==>
                w.ending == Complete && Balanced(w.marks, []) && Needs(w.marks) <= cap)
            && (Run(js, INIT, cap).code >= 0 ==> Run(js, INIT, cap).code == Needs(w.marks))
  {
    CodeExactly(js, INIT, cap);
    VerdictIsCount(Lex(js, 0), [], 0, cap);
  }

  /** A call ends at the end of its text, or where the bracket, string or value begins that it returns the error for. */
  lemma {:induction false} EndsWhereItFails(js: string, st: State, cap: nat)
    requires Valid(st)
    ensures var r := Run(js, st, cap);
            if AtEnd(js, r.st.pos) then r.code == if OpenKinds(r.st.toks) == [] then |r.st.toks| else -3
            else Step(js, r.st, cap) == Fail(r.code)
    decreases |js| - st.pos
  {
    if AtEnd(js, st.pos) {
      CloseIsPop(st.toks, st.pos + 1);
    } else if Step(js, st, cap).Next? {
      EndsWhereItFails(js, Step(js, st, cap).st, cap);
    }
  }

  // ---------- ranges and sizes ----------

  ghost predicate Before(s: Token, t: Token) {
    && s.start < t.start
    && (!IsOpen(s) ==> s.end <= t.start || (!IsOpen(t) && t.end <= s.end))
  }

  /** Tokens begin in order, and the range of a closed one is disjoint from or contains the range of every later one. */
  ghost predicate Nested(st: State) {
    && (forall i :: 0 <= i < |st.toks| ==>
          0 <= st.toks[i].start < st.pos && (IsOpen(st.toks[i]) || st.toks[i].start <= st.toks[i].end <= st.pos))
    && (forall i, j :: 0 <= i < j < |st.toks| ==> Before(st.toks[i], st.toks[j]))
  }

  lemma CloseKeepsNested(st: State, kind: Kind)
    requires Valid(st) && Nested(st) && Close(st, kind).Next?
    ensures Nested(Close(st, kind).st)
  {
    var st' := Close(st, kind).st;
    var i := LastOpen(st.toks, |st.toks|);
    forall a, b | 0 <= a < b < |st.toks| ensures Before(st'.toks[a], st'.toks[b]) {
      assert Before(st.toks[a], st.toks[b]);
    }
  }

  lemma MoreIsNested(st: State, t: Token, next: nat, super: int)
    requires Valid(st) && Nested(st)
    requires st.pos <= t.start < next && st.pos <= next && (IsOpen(t) || t.start <= t.end <= next)
    ensures Nested(State(next, Bump(st.toks, st.super) + [t], super))
  {
    var toks := Bump(st.toks, st.super) + [t];
    var n := |st.toks|;
    assert forall a :: 0 <= a < n ==> toks[a].start == st.toks[a].start && toks[a].end == st.toks[a].end;
    forall a, b | 0 <= a < b < n + 1 ensures Before(toks[a], toks[b]) {
      if b < n { assert Before(st.toks[a], st.toks[b]); }
    }
  }

  lemma StepKeepsNested(js: string, st: State, cap: nat)
    requires Valid(st) && Nested(st) && !AtEnd(js, st.pos)
    requires Step(js, st, cap).Next?
    ensures Nested(Step(js, st, cap).st)
  {
    hide Run, Nested, ScanString;
    var c, st' := js[st.pos], Step(js, st, cap).st;
    if c == '}' || c == ']' {
      CloseKeepsNested(st, if c == '}' then Object else Array);
    } else if |st'.toks| > |st.toks| {
      MoreIsNested(st, st'.toks[|st.toks|], st'.pos, st'.super);
    } else {
      LaterIsNested(st, st');
    }
  }

  lemma LaterIsNested(st: State, st': State)
    requires Nested(st) && st'.toks == st.toks && st.pos <= st'.pos
    ensures Nested(st')
  {
  }

  /** Whatever the outcome, the tokens begin in strictly increasing order and their ranges are nested or disjoint. */
  lemma {:induction false} TokensAreNested(js: string, st: State, cap: nat)
    requires Valid(st) && Nested(st)
    ensures Nested(Run(js, st, cap).st)
    decreases |js| - st.pos
  {
    if !AtEnd(js, st.pos) && Step(js, st, cap).Next? {
      StepKeepsNested(js, st, cap);
      TokensAreNested(js, Step(js, st, cap).st, cap);
    }
  }

  function TotalSize(toks: seq<Token>): nat {
    if toks == [] then 0 else TotalSize(toks[..|toks| - 1]) + toks[|toks| - 1].size
  }

  /** The tokens that a run allocates while there is no superior token. */
  function Roots(js: string, st: State, cap: nat): nat
    requires Valid(st)
    decreases |js| - st.pos
  {
    if AtEnd(js, st.pos) then 0
    else
      match Step(js, st, cap)
      case Next(st') => (if |st'.toks| > |st.toks| && st.super == -1 then 1 else 0) + Roots(js, st', cap)
      case Fail(_) => 0
  }

  lemma {:induction false} SizeOfUpdate(toks: seq<Token>, i: nat, t: Token)
    requires i < |toks|
    ensures TotalSize(toks[i := t]) == TotalSize(toks) - toks[i].size + t.size
  {
    var n := |toks| - 1;
    if i == n {
      assert toks[i := t][..n] == toks[..n];
    } else {
      SizeOfUpdate(toks[..n], i, t);
      assert toks[i := t][..n] == toks[..n][i := t];
    }
  }

  lemma StepAddsSize(js: string, st: State, cap: nat)
    requires Valid(st) && !AtEnd(js, st.pos) && Step(js, st, cap).Next?
    ensures var st' := Step(js, st, cap).st;
            if |st'.toks| > |st.toks| then
              |st'.toks| == |st.toks| + 1 &&
              TotalSize(st'.toks) == TotalSize(st.toks) + if st.super == -1 then 0 else 1
            else TotalSize(st'.toks) == TotalSize(st.toks)
  {
    hide ScanString, ScanPrimitive, Run;
    var st' := Step(js, st, cap).st;
    var n := |st.toks|;
    if |st'.toks| > n {
      var toks := Bump(st.toks, st.super);
      assert st'.toks[..n] == toks;
      if st.super != -1 { SizeOfUpdate(st.toks, st.super, toks[st.super]); }
    } else if st'.toks != st.toks {
      var i := LastOpen(st.toks, n);
      SizeOfUpdate(st.toks, i, st'.toks[i]);
    }
  }

  /** Every token but the roots is counted once, in the size of one other token. */
  lemma {:induction false} SizesCountChildren(js: string, st: State, cap: nat)
    requires Valid(st)
    ensures var toks := Run(js, st, cap).st.toks;
            TotalSize(toks) + Roots(js, st, cap) - |toks| == TotalSize(st.toks) - |st.toks|
    decreases |js| - st.pos
  {
    if !AtEnd(js, st.pos) && Step(js, st, cap).Next? {
      StepAddsSize(js, st, cap);
      SizesCountChildren(js, Step(js, st, cap).st, cap);
    }
  }

  // ---------- running out of tokens ----------

  /**
   A run that does not run out of tokens is the run with any larger array; one that does can be
   called again with a larger array and ends with the same code, tokens and parser as one run with it.
   */
  lemma {:induction false} MoreTokensResume(js: string, st: State, cap: nat, cap': nat)
    requires Valid(st) && cap <= cap'
    ensures var r := Run(js, st, cap);
            if r.code == ERROR_NOMEM then Run(js, r.st, cap') == Run(js, st, cap') else r == Run(js, st, cap')
    decreases |js| - st.pos
  {
    if !AtEnd(js, st.pos) && Step(js, st, cap).Next? {
      MoreTokensResume(js, Step(js, st, cap).st, cap, cap');
    }
  }

  /** A parse that needs n tokens runs out of them with any smaller array. */
  lemma FewerTokensFail(js: string, st: State, cap: nat, cap': nat)
    requires Valid(st) && |st.toks| <= cap
    requires Run(js, st, cap').code > cap
    ensures Run(js, st, cap).code == ERROR_NOMEM
  {
    RunFits(js, st, cap);
    if cap <= cap' {
      MoreTokensResume(js, st, cap, cap');
    } else {
      RunFits(js, st, cap');
    }
  }

  lemma {:induction false} RunFits(js: string, st: State, cap: nat)
    requires Valid(st)
    ensures |Run(js, st, cap).st.toks| <= if |st.toks| <= cap then cap else |st.toks|
    decreases |js| - st.pos
  {
    if !AtEnd(js, st.pos) && Step(js, st, cap).Next? {
      RunFits(js, Step(js, st, cap).st, cap);
    }
  }

  /** Counting without tokens returns the number of brackets opened and leaves, or how the text is malformed. */
  lemma {:induction false} CountExactly(js: string, p: nat, count: nat)
    ensures CountRun(js, p, count) ==
            var w := Lex(js, p);
            match w.ending
            case Complete => count + Needs(w.marks)
            case Refused => -2
            case CutOff => -3
    decreases |js| - p
  {
    hide ScanString;
    if !AtEnd(js, p) {
      var c := js[p];
      if c == '{' || c == '[' {
        CountExactly(js, p + 1, count + 1);
      } else if c == '"' {
        if ScanString(js, p + 1).Stop? { CountExactly(js, ScanString(js, p + 1).at + 1, count + 1); }
      } else if EndsPrimitive(c) {
        CountExactly(js, p + 1, count);
      } else if ScanPrimitive(js, p).Stop? {
        CountExactly(js, ScanPrimitive(js, p).at, count + 1);
      }
    }
  }

  /**
   Counting without tokens simulates the parse: it returns what a successful parse returns, and
   with an array of that many tokens the parse never runs out of them.
   */
  lemma CountSimulatesParse(js: string, st: State, cap: nat)
    requires Valid(st)
    ensures var n, r := CountRun(js, st.pos, |st.toks|), Run(js, st, cap);
            && (r.code >= 0 ==> n == r.code)
            && (0 <= n <= cap ==> r.code != ERROR_NOMEM)
            && (n < 0 ==> r.code < 0)
  {
    hide Run, CountRun, Lex, Verdict;
    var w := Lex(js, st.pos);
    CountExactly(js, st.pos, |st.toks|);
    CodeExactly(js, st, cap);
    VerdictIsCount(w, OpenKinds(st.toks), |st.toks|, cap);
  }
}
