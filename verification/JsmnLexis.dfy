/**
 What the tokenizer takes for a string and for an unquoted value, described apart from
 its scans and with its characters written out. It is more liberal than RFC 8259: a string
 may hold any character but NUL outside its escapes, and an unquoted value any printable ones.
 */
module JsmnLexis {
  import opened JsmnModel

  /** The classes of characters, written out. */
  lemma ClassesAre(c: char)
    ensures IsBlank(c) <==> c in " \t\n\r"
    ensures EndsPrimitive(c) <==> c in " \t\n\r,:]}"
    ensures IsSimpleEscape(c) <==> c in "\"\\/bfnrt"
    ensures IsHex(c) <==> HexDigit(c)
  {
  }

  predicate HexDigit(c: char) {
    c in "0123456789abcdefABCDEF"
  }

  predicate AllHex(s: string) {
    forall i :: 0 <= i < |s| ==> HexDigit(s[i])
  }

  /** What may stand between two quotes: characters other than quote, backslash and NUL, and complete escapes. */
  predicate LaxBody(s: string) {
    if s == "" then true
    else if s[0] == '\\' then
      || (|s| >= 2 && s[1] in "\"\\/bfnrt" && LaxBody(s[2..]))
      || (|s| >= 6 && s[1] == 'u' && AllHex(s[2..6]) && LaxBody(s[6..]))
    else s[0] != '"' && s[0] != '\0' && LaxBody(s[1..])
  }

  /** The body runs up to a quote at q. */
  predicate BodyUpTo(js: string, p: nat, q: nat) {
    p <= q < |js| && js[q] == '"' && LaxBody(js[p..q])
  }

  /**
   What a string that is never closed may hold: a body whose last escape may be cut off, a lone backslash only
   by the end of the buffer.
   */
  predicate CutBody(s: string, last: bool) {
    if s == "" then true
    else if s[0] != '\\' then s[0] != '"' && CutBody(s[1..], last)
    else if |s| == 1 then last
    else if s[1] in "\"\\/bfnrt" then CutBody(s[2..], last)
    else s[1] == 'u' && if |s| < 6 then AllHex(s[2..]) else AllHex(s[2..6]) && CutBody(s[6..], last)
  }

  /** The text read from p on ends at e, which is the end of the buffer or the first NUL. */
  ghost predicate EndsAt(js: string, p: nat, e: nat) {
    p <= e <= |js| && (e == |js| || js[e] == '\0') && forall i :: p <= i < e ==> js[i] != '\0'
  }

  // ---------- strings ----------

  predicate HexAt(js: string, p: nat) {
    p < |js| && HexDigit(js[p])
  }

  predicate HexesAt(js: string, p: nat, n: nat)
    decreases n
  {
    n == 0 || (HexAt(js, p) && HexesAt(js, p + 1, n - 1))
  }

  lemma MoreHex(c: char, s: string)
    ensures AllHex([c] + s) <==> HexDigit(c) && AllHex(s)
  {
    hide HexDigit;
    var t := [c] + s;
    assert t[0] == c && t[1..] == s;
    if AllHex(t) {
      forall i | 0 <= i < |s| ensures HexDigit(s[i]) { assert s[i] == t[i + 1]; }
    }
  }

  lemma NoneIsHex(js: string, p: nat)
    requires p <= |js|
    ensures AllHex(js[p..p])
  {
  }

  lemma {:induction false} HexesAre(js: string, p: nat, n: nat)
    ensures HexesAt(js, p, n) <==> n == 0 || (p + n <= |js| && AllHex(js[p..p + n]))
    decreases n
  {
    hide HexDigit, AllHex;
    if n > 0 {
      HexesAre(js, p + 1, n - 1);
      if p + n <= |js| {
        MoreHex(js[p], js[p + 1..p + n]);
        assert js[p..p + n] == [js[p]] + js[p + 1..p + n];
        if n == 1 { NoneIsHex(js, p + 1); }
      }
    }
  }

  /** The scan of an escape passes four digits, or stops at the end, or refuses. */
  lemma {:induction false} ScanHexExactly(js: string, p: nat, i: nat)
    requires i <= 4
    ensures HexesAt(js, p, 4 - i) ==> ScanHex(js, p, i) == Stop(p + 4 - i)
    ensures !HexesAt(js, p, 4 - i) ==>
              ScanHex(js, p, i) == Bad || (ScanHex(js, p, i).Stop? && AtEnd(js, ScanHex(js, p, i).at))
    decreases 4 - i
  {
    hide HexDigit;
    if i < 4 {
      ScanHexExactly(js, p + 1, i + 1);
      if p < |js| { ClassesAre(js[p]); }
    }
  }

  lemma Part(js: string, p: nat, q: nat, a: nat, b: nat)
    requires p + b <= q <= |js| && a <= b
    ensures js[p..q][a..b] == js[p + a..p + b]
  {
    assert |js[p..q][a..b]| == |js[p + a..p + b]|;
    forall i | 0 <= i < b - a ensures js[p..q][a..b][i] == js[p + a..p + b][i] {
      assert js[p..q][a..b][i] == js[p..q][a + i];
    }
  }

  /** A body begins with a character of its own, a simple escape, or a numbered one. */
  lemma BodyBegins(js: string, p: nat, q: nat)
    requires p < q < |js|
    ensures LaxBody(js[p..q]) <==>
            if js[p] != '\\' then js[p] != '"' && js[p] != '\0' && LaxBody(js[p + 1..q])
            else if p + 2 <= q && IsSimpleEscape(js[p + 1]) then LaxBody(js[p + 2..q])
            else p + 6 <= q && js[p + 1] == 'u' && HexesAt(js, p + 2, 4) && LaxBody(js[p + 6..q])
  {
    hide AllHex, HexesAt;
    var s := js[p..q];
    assert s[1..] == js[p + 1..q];
    if p + 2 <= q {
      ClassesAre(js[p + 1]);
      assert s[2..] == js[p + 2..q];
    }
    if p + 6 <= q {
      HexesAre(js, p + 2, 4);
      Part(js, p, q, 2, 6);
      assert s[6..] == js[p + 6..q];
    }
  }

  /** The scan of a string stops at a quote exactly if all before it is a body. */
  lemma {:induction false} StringEndsExactly(js: string, p: nat, q: nat)
    ensures ScanString(js, p) == Stop(q) <==> BodyUpTo(js, p, q)
    decreases |js| - p
  {
    hide LaxBody, ScanHex, HexesAt, IsSimpleEscape;
    if p < |js| { NothingIsBody(js, p); }
    if p < q < |js| { BodyBegins(js, p, q); }
    if p < |js| && js[p] != '"' && js[p] != '\0' {
      if js[p] != '\\' || p + 1 == |js| {
        StringEndsExactly(js, p + 1, q);
      } else if IsSimpleEscape(js[p + 1]) {
        StringEndsExactly(js, p + 2, q);
      } else if js[p + 1] == 'u' {
        ScanHexExactly(js, p + 2, 0);
        if HexesAt(js, p + 2, 4) { StringEndsExactly(js, p + 6, q); }
      }
    }
  }

  lemma NothingIsBody(js: string, p: nat)
    requires p < |js|
    ensures LaxBody(js[p..p])
  {
  }

  // ---------- strings that are not closed ----------

  /** The scan of an escape passes up to four digits before the end of the text and refuses anything else there. */
  lemma {:induction false} ScanHexBefore(js: string, p: nat, i: nat, e: nat)
    requires i <= 4 && EndsAt(js, p, e)
    ensures var n := if e - p < 4 - i then e - p else 4 - i;
            ScanHex(js, p, i) == if AllHex(js[p..p + n]) then Stop(p + n) else Bad
    decreases 4 - i
  {
    hide HexDigit, AllHex;
    var n := if e - p < 4 - i then e - p else 4 - i;
    if n == 0 {
      NoneIsHex(js, p);
    } else {
      ScanHexBefore(js, p + 1, i + 1, e);
      ClassesAre(js[p]);
      MoreHex(js[p], js[p + 1..p + n]);
      assert js[p..p + n] == [js[p]] + js[p + 1..p + n];
    }
  }

  /** A cut body begins with a character of its own, a simple escape, or a numbered one that may be cut off. */
  lemma CutBegins(js: string, p: nat, e: nat)
    requires p < e <= |js|
    ensures CutBody(js[p..e], e == |js|) <==>
            if js[p] != '\\' then js[p] != '"' && CutBody(js[p + 1..e], e == |js|)
            else if p + 1 == e then e == |js|
            else if IsSimpleEscape(js[p + 1]) then CutBody(js[p + 2..e], e == |js|)
            else js[p + 1] == 'u' &&
                 if e < p + 6 then AllHex(js[p + 2..e])
                 else AllHex(js[p + 2..p + 6]) && CutBody(js[p + 6..e], e == |js|)
  {
    hide AllHex;
    var s := js[p..e];
    assert s[1..] == js[p + 1..e];
    if p + 2 <= e {
      ClassesAre(js[p + 1]);
      assert s[2..] == js[p + 2..e];
    }
    if p + 6 <= e {
      Part(js, p, e, 2, 6);
      assert s[6..] == js[p + 6..e];
    }
  }

  /** The scan of a string runs into the end of the text exactly if all up to there is a cut body. */
  lemma {:induction false} StringIsCutExactly(js: string, p: nat, e: nat)
    requires EndsAt(js, p, e)
    ensures ScanString(js, p) == Unfinished <==> CutBody(js[p..e], e == |js|)
    decreases |js| - p
  {
    hide ScanHex, AllHex, IsSimpleEscape, CutBody;
    if p == e {
      NothingIsCut(js, p);
    } else {
      CutBegins(js, p, e);
      if js[p] != '"' && (js[p] != '\\' || p + 1 == |js|) {
        StringIsCutExactly(js, p + 1, e);
        if p + 1 == e { NothingIsCut(js, e); }
      } else if js[p] == '\\' && p + 2 <= e {
        if IsSimpleEscape(js[p + 1]) {
          StringIsCutExactly(js, p + 2, e);
        } else if js[p + 1] == 'u' {
          ScanHexBefore(js, p + 2, 0, e);
          if p + 6 <= e { StringIsCutExactly(js, p + 6, e); }
        }
      } else if js[p] == '\\' {
        NoEscapeIsNul();
      }
    }
  }

  lemma NothingIsCut(js: string, p: nat)
    requires p <= |js|
    ensures CutBody(js[p..p], p == |js|)
  {
  }

  lemma NoEscapeIsNul()
    ensures !IsSimpleEscape('\0')
  {
  }

  // ---------- unquoted values ----------

  /** A character of an unquoted value: printable ASCII that ends none. */
  predicate BareAt(js: string, i: nat) {
    i < |js| && 32 <= js[i] as int <= 126 && js[i] !in " \t\n\r,:]}"
  }

  /**
   The scan of an unquoted value stops at the first position that is the end or ends it, if all before are
   printable.
   */
  lemma {:induction false} PrimitiveEndsExactly(js: string, p: nat, q: nat)
    ensures ScanPrimitive(js, p) == Stop(q) <==>
            && p <= q && (forall i :: p <= i < q ==> BareAt(js, i))
            && (q >= |js| || js[q] in "\0 \t\n\r,:]}")
    decreases |js| - p
  {
    if p < |js| { ClassesAre(js[p]); }
    if q < |js| { ClassesAre(js[q]); }
    if BareAt(js, p) { PrimitiveEndsExactly(js, p + 1, q); }
  }
}
