/**
 jsmn_parse and its helpers, updating a parser and a token array in place, proved
 equal to the state machine of JsmnModel. A null token array asks for a count only.
 */
module JsmnParser {
  import opened JsmnModel

  /** The characters that begin an unquoted value, or are refused as one. */
  predicate IsOther(c: char) {
    c != '{' && c != '[' && c != '"' && !EndsPrimitive(c)
  }

  /** A child may be counted before its token is appended. */
  lemma BumpEarlier(toks: seq<Token>, t: Token, i: int)
    requires -1 <= i < |toks|
    ensures Bump(toks + [t], i) == Bump(toks, i) + [t]
  {
  }

  class Parser {
    var pos: nat
    var toknext: nat
    var toksuper: int

    constructor ()
      ensures pos == 0 && toknext == 0 && toksuper == -1
    {
      pos, toknext, toksuper := 0, 0, -1;
    }

    ghost predicate Fits(tokens: array?<Token>)
      reads this
    {
      tokens != null ==> toknext <= tokens.Length && -1 <= toksuper < toknext
    }

    ghost function Abs(tokens: array<Token>): State
      reads this, tokens
      requires Fits(tokens)
    {
      State(pos, tokens[..toknext], toksuper)
    }

    method AllocToken(tokens: array<Token>, cap: nat) returns (i: int)
      requires Fits(tokens) && cap <= tokens.Length
      modifies this`toknext, tokens
      ensures old(toknext) >= cap ==> i == -1 && toknext == old(toknext) && tokens[..] == old(tokens[..])
      ensures old(toknext) < cap ==> i == old(toknext) && toknext == i + 1 && tokens[i].start == tokens[i].end == -1 &&
                                     tokens[i].size == 0 && tokens[..] == old(tokens[..])[i := tokens[i]]
    {
      if toknext >= cap {
        return -1;
      }
      i := toknext;
      toknext := toknext + 1;
      tokens[i] := tokens[i].(start := -1, end := -1);
      tokens[i] := tokens[i].(size := 0);
    }

    /** What a scan that starts at the current position adds to the parser and the array. */
    twostate predicate Emitted(scan: Scan, t: Token, tokens: array?<Token>, cap: nat, r: int)
      requires old(Fits(tokens))
      reads this, tokens
    {
      && toksuper == old(toksuper)
      && match scan
         case Stop(q) =>
           if tokens == null then r == 0 && toknext == old(toknext)
           else if old(toknext) >= cap then
             r == ERROR_NOMEM && pos == old(pos) && toknext == old(toknext) && tokens[..] == old(tokens[..])
           else
             r == 0 && toknext == old(toknext) + 1 <= tokens.Length &&
             tokens[..toknext] == old(tokens[..toknext]) + [t]
         case _ =>
           r == (if scan.Bad? then ERROR_INVAL else ERROR_PART) && pos == old(pos) && toknext == old(toknext) &&
           (tokens != null ==> tokens[..] == old(tokens[..]))
    }

    /** Allocates a token and fills it, if there is one left. */
    method FillNext(tokens: array<Token>, cap: nat, t: Token) returns (ok: bool)
      requires toknext <= tokens.Length && -1 <= toksuper < toknext && cap <= tokens.Length
      modifies this`toknext, tokens
      ensures ok <==> old(toknext) < cap
      ensures if ok then toknext == old(toknext) + 1 <= tokens.Length
              && tokens[..toknext] == old(tokens[..toknext]) + [t]
              else toknext == old(toknext) && tokens[..] == old(tokens[..])
    {
      var i := AllocToken(tokens, cap);
      if i == -1 {
        return false;
      }
      tokens[i] := t;
      return true;
    }

    method ParsePrimitive(js: string, tokens: array?<Token>, cap: nat) returns (r: int)
      requires Fits(tokens) && (tokens != null ==> cap <= tokens.Length)
      requires !AtEnd(js, pos) && !EndsPrimitive(js[pos])
      modifies this`pos, this`toknext, tokens
      ensures var scan := ScanPrimitive(js, old(pos));
              && Emitted(scan, Token(Primitive, old(pos), if scan.Stop? then scan.at else 0, 0), tokens, cap, r)
              && (r == 0 ==> pos + 1 == scan.at)
    {
      var start := pos;
      while pos < |js| && js[pos] != '\0' && !EndsPrimitive(js[pos])
        invariant start <= pos <= |js|
        invariant pos == start ==> !AtEnd(js, pos) && !EndsPrimitive(js[pos])
        invariant ScanPrimitive(js, pos) == ScanPrimitive(js, start)
        modifies this`pos
      {
        if js[pos] as int < 32 || js[pos] as int >= 127 {
          pos := start;
          return ERROR_INVAL;
        }
        pos := pos + 1;
      }
      if tokens == null {
        pos := pos - 1;
        return 0;
      }
      var ok := FillNext(tokens, cap, Token(Primitive, start, pos, 0));
      if !ok {
        pos := start;
        return ERROR_NOMEM;
      }
      pos := pos - 1;
      return 0;
    }

    /** Skips the up to four digits of an escape. */
    method SkipHex(js: string) returns (ok: bool)
      requires pos <= |js|
      modifies this`pos
      ensures ok ==> ScanHex(js, old(pos), 0) == Stop(pos) && old(pos) <= pos
      ensures !ok ==> ScanHex(js, old(pos), 0) == Bad
    {
      var i := 0;
      while i < 4 && pos < |js| && js[pos] != '\0'
        invariant 0 <= i <= 4 && old(pos) <= pos
        invariant ScanHex(js, pos, i) == ScanHex(js, old(pos), 0)
      {
        if !IsHex(js[pos]) {
          return false;
        }
        pos := pos + 1;
        i := i + 1;
      }
      return true;
    }

    method ParseString(js: string, tokens: array?<Token>, cap: nat) returns (r: int)
      requires Fits(tokens) && (tokens != null ==> cap <= tokens.Length)
      requires pos < |js|
      modifies this`pos, this`toknext, tokens
      ensures var scan := ScanString(js, old(pos) + 1);
              && Emitted(scan, Token(String, old(pos) + 1, if scan.Stop? then scan.at else 0, 0), tokens, cap, r)
              && (r == 0 ==> pos == scan.at)
    {
      var start := pos;
      pos := pos + 1;
      while pos < |js| && js[pos] != '\0' && js[pos] != '"'
        invariant start < pos
        invariant ScanString(js, pos) == ScanString(js, start + 1)
        decreases |js| - pos
        modifies this`pos
      {
        if js[pos] == '\\' && pos + 1 < |js| {
          pos := pos + 1;
          if IsSimpleEscape(js[pos]) {
          } else if js[pos] == 'u' {
            pos := pos + 1;
            var ok := SkipHex(js);
            if !ok {
              pos := start;
              return ERROR_INVAL;
            }
            pos := pos - 1;
          } else {
            pos := start;
            return ERROR_INVAL;
          }
        }
        pos := pos + 1;
      }
      if pos >= |js| || js[pos] == '\0' {
        pos := start;
        return ERROR_PART;
      }
      if tokens == null {
        return 0;
      }
      var ok := FillNext(tokens, cap, Token(String, start + 1, pos, 0));
      if !ok {
        pos := start;
        return ERROR_NOMEM;
      }
      return 0;
    }

    method BumpSuper(tokens: array<Token>)
      requires Fits(tokens)
      modifies tokens
      ensures tokens[..toknext] == Bump(old(tokens[..toknext]), toksuper)
    {
      if toksuper != -1 {
        tokens[toksuper] := tokens[toksuper].(size := tokens[toksuper].size + 1);
      }
    }

    method OpenBracket(js: string, tokens: array<Token>, cap: nat) returns (r: int)
      requires Fits(tokens) && cap <= tokens.Length
      requires pos < |js| && (js[pos] == '{' || js[pos] == '[')
      modifies this, tokens
      ensures Fits(tokens) && pos == old(pos)
      ensures match Open(old(Abs(tokens)), if js[pos] == '{' then Object else Array, cap)
              case Fail(code) => r == code && Abs(tokens) == old(Abs(tokens))
              case Next(st) => r == 0 && Abs(tokens).(pos := pos + 1) == st
    {
      var c := js[pos];
      var i := AllocToken(tokens, cap);
      if i == -1 {
        return ERROR_NOMEM;
      }
      if toksuper != -1 {
        tokens[toksuper] := tokens[toksuper].(size := tokens[toksuper].size + 1);
      }
      tokens[i] := tokens[i].(kind := if c == '{' then Object else Array);
      tokens[i] := tokens[i].(start := pos);
      toksuper := toknext - 1;
      return 0;
    }

    method CloseBracket(js: string, tokens: array<Token>) returns (r: int)
      requires Fits(tokens)
      requires pos < |js| && (js[pos] == '}' || js[pos] == ']')
      modifies this`toksuper, tokens
      ensures Fits(tokens)
      ensures match Close(old(Abs(tokens)), if js[pos] == '}' then Object else Array)
              case Fail(code) => r == code && Abs(tokens) == old(Abs(tokens))
              case Next(st) => r == 0 && Abs(tokens).(pos := pos + 1) == st
    {
      var kind := if js[pos] == '}' then Object else Array;
      var i := toknext - 1;
      while i >= 0
        invariant -1 <= i < toknext
        invariant LastOpen(tokens[..toknext], toknext) == LastOpen(tokens[..toknext], i + 1)
        invariant toksuper == old(toksuper) && tokens[..] == old(tokens[..])
      {
        if tokens[i].start != -1 && tokens[i].end == -1 {
          if tokens[i].kind != kind {
            return ERROR_INVAL;
          }
          toksuper := -1;
          tokens[i] := tokens[i].(end := pos + 1);
          break;
        }
        i := i - 1;
      }
      if i == -1 {
        return ERROR_INVAL;
      }
      ghost var closed := i;
      assert tokens[..toknext] == old(tokens[..toknext])[closed := tokens[closed]];
      while i >= 0
        invariant -1 <= i <= closed
        invariant LastOpen(tokens[..toknext], closed + 1) == LastOpen(tokens[..toknext], i + 1)
        invariant toksuper == -1
      {
        if tokens[i].start != -1 && tokens[i].end == -1 {
          toksuper := i;
          break;
        }
        i := i - 1;
      }
      return 0;
    }

    method CommaSign(tokens: array<Token>)
      requires Fits(tokens)
      modifies this`toksuper
      ensures Fits(tokens)
      ensures Abs(tokens).(pos := pos + 1) == Comma(old(Abs(tokens)))
    {
      if toksuper != -1 && tokens[toksuper].kind != Array && tokens[toksuper].kind != Object {
        var i := toknext - 1;
        while i >= 0
          invariant -1 <= i < toknext
          invariant LastOpenContainer(tokens[..toknext], toknext) == LastOpenContainer(tokens[..toknext], i + 1)
          invariant toksuper == old(toksuper)
        {
          if tokens[i].kind == Array || tokens[i].kind == Object {
            if tokens[i].start != -1 && tokens[i].end == -1 {
              toksuper := i;
              break;
            }
          }
          i := i - 1;
        }
      }
    }

    /** What an iteration leaves, up to the increment of the position, and what it adds to the count. */
    twostate predicate Iterated(o: Outcome, tokens: array<Token>, r: int, counted: nat)
      requires old(Fits(tokens))
      reads this, tokens
    {
      && Fits(tokens)
      && match o
         case Fail(code) => r == code && Abs(tokens) == old(Abs(tokens))
         case Next(st) => r == 0 && Abs(tokens).(pos := pos + 1) == st && counted == toknext - old(toknext)
    }

    method StringToken(js: string, tokens: array<Token>, cap: nat) returns (r: int, counted: nat)
      requires Fits(tokens) && cap <= tokens.Length
      requires !AtEnd(js, pos) && js[pos] == '"'
      modifies this, tokens
      ensures Iterated(Step(js, old(Abs(tokens)), cap), tokens, r, counted)
    {
      hide ScanString;
      counted := 0;
      r := ParseString(js, tokens, cap);
      if r < 0 { return; }
      counted := 1;
      BumpEarlier(old(tokens[..toknext]), tokens[toknext - 1], toksuper);
      BumpSuper(tokens);
    }

    method PrimitiveToken(js: string, tokens: array<Token>, cap: nat) returns (r: int, counted: nat)
      requires Fits(tokens) && cap <= tokens.Length
      requires !AtEnd(js, pos) && IsOther(js[pos])
      modifies this, tokens
      ensures Iterated(Step(js, old(Abs(tokens)), cap), tokens, r, counted)
    {
      hide ScanPrimitive;
      counted := 0;
      r := ParsePrimitive(js, tokens, cap);
      if r < 0 { return; }
      counted := 1;
      BumpEarlier(old(tokens[..toknext]), tokens[toknext - 1], toksuper);
      BumpSuper(tokens);
    }

    /** One iteration of the main loop. */
    method Iterate(js: string, tokens: array<Token>, cap: nat) returns (r: int, counted: nat)
      requires Fits(tokens) && cap <= tokens.Length
      requires !AtEnd(js, pos)
      modifies this, tokens
      ensures Iterated(Step(js, old(Abs(tokens)), cap), tokens, r, counted)
    {
      hide ScanString, ScanPrimitive, Close, Comma;
      r, counted := 0, 0;
      var c := js[pos];
      if c == '{' || c == '[' {
        counted := 1;
        r := OpenBracket(js, tokens, cap);
      } else if c == '}' || c == ']' {
        r := CloseBracket(js, tokens);
      } else if c == '"' {
        r, counted := StringToken(js, tokens, cap);
      } else if IsBlank(c) {
      } else if c == ':' {
        toksuper := toknext - 1;
      } else if c == ',' {
        CommaSign(tokens);
      } else {
        r, counted := PrimitiveToken(js, tokens, cap);
      }
    }

    /** The parse with a token array leaves the code, the tokens and the parser that Run says. */
    method Parse(js: string, tokens: array<Token>, cap: nat) returns (r: int)
      requires Fits(tokens) && cap <= tokens.Length
      modifies this, tokens
      ensures Fits(tokens)
      ensures Result(r, Abs(tokens)) == Run(js, old(Abs(tokens)), cap)
    {
      hide Step, LastOpen;
      var count := toknext;
      while pos < |js| && js[pos] != '\0'
        invariant Fits(tokens)
        invariant count == toknext
        invariant Run(js, Abs(tokens), cap) == Run(js, old(Abs(tokens)), cap)
        decreases |js| - pos
      {
        var counted;
        r, counted := Iterate(js, tokens, cap);
        if r < 0 { return; }
        count := count + counted;
        pos := pos + 1;
      }
      var open := AnyOpen(tokens);
      return if open then ERROR_PART else count;
    }

    /** The scan for an object or array that was not closed. */
    method AnyOpen(tokens: array<Token>) returns (open: bool)
      requires Fits(tokens)
      ensures open <==> LastOpen(tokens[..toknext], toknext) != -1
    {
      var i := toknext - 1;
      while i >= 0
        invariant -1 <= i < toknext
        invariant LastOpen(tokens[..toknext], toknext) == LastOpen(tokens[..toknext], i + 1)
      {
        if tokens[i].start != -1 && tokens[i].end == -1 {
          return true;
        }
        i := i - 1;
      }
      return false;
    }

    /** The parse without a token array counts the tokens and allocates none. */
    method Count(js: string) returns (r: int)
      modifies this
      ensures toknext == old(toknext)
      ensures r == CountRun(js, old(pos), old(toknext)) && (r >= 0 ==> AtEnd(js, pos))
      ensures toksuper == if MeetsColon(js, old(pos)) then toknext - 1 else old(toksuper)
    {
      hide ScanString;
      ghost var met := false;
      var count := toknext;
      while pos < |js| && js[pos] != '\0'
        invariant toknext == old(toknext)
        invariant CountRun(js, pos, count) == CountRun(js, old(pos), old(toknext))
        invariant MeetsColon(js, old(pos)) <==> met || MeetsColon(js, pos)
        invariant toksuper == if met then toknext - 1 else old(toksuper)
        decreases |js| - pos
      {
        var c := js[pos];
        if c == '{' || c == '[' {
          count := count + 1;
        } else if c == '"' {
          r := ParseString(js, null, 0);
          if r < 0 { return; }
          count := count + 1;
        } else if c == ':' {
          toksuper := toknext - 1;
          met := true;
        } else if !EndsPrimitive(c) {
          r := ParsePrimitive(js, null, 0);
          if r < 0 { return; }
          count := count + 1;
        }
        pos := pos + 1;
      }
      return count;
    }
  }
}
