/**
 * Text helpers shared by the encoder, the parser and the socket layer: the
 * CRLF terminator, PHP's `strtok` over spaces, `rtrim($s, "\r\n")` and
 * locating the first CRLF.
 */
module Wire {
  import opened Wrappers
  import opened Decimal

  const CRLF: string := "\r\n"

  predicate NoCR(s: string) { forall i :: 0 <= i < |s| ==> s[i] != '\r' }

  predicate NoSpace(s: string) { forall i :: 0 <= i < |s| ==> s[i] != ' ' }

  /** Index of the first "\r\n" in `s`, or `|s|` when there is none. */
  function FindCRLF(s: string): (p: nat)
    ensures p <= |s|
    ensures p < |s| ==> p + 1 < |s| && s[p] == '\r' && s[p + 1] == '\n'
    ensures forall j :: 0 <= j < p && j + 1 < |s| ==> !(s[j] == '\r' && s[j + 1] == '\n')
  {
    if |s| < 2 then |s|
    else if s[0] == '\r' && s[1] == '\n' then 0
    else
      var q := FindCRLF(s[1..]);
      if q == |s| - 1 then |s| else 1 + q
  }

  lemma FindCRLFAfter(line: string, rest: string)
    requires NoCR(line)
    ensures FindCRLF(line + CRLF + rest) == |line|
  {
    var s := line + CRLF + rest;
    var p := FindCRLF(s);
    assert s[|line|] == '\r' && s[|line| + 1] == '\n';
    assert forall j :: 0 <= j < |line| ==> s[j] == line[j];
  }

  /** A line, CRLF, then an arbitrary body and CRLF: the line is everything before the first CRLF. */
  lemma FrameSplit(line: string, body: string)
    requires NoCR(line)
    ensures var w := line + CRLF + body + CRLF;
            FindCRLF(w) == |line| && w[..|line|] == line
            && w[|line| + 2..|line| + 2 + |body|] == body && w[|line| + 2 + |body|..] == CRLF
  {
    var w := line + CRLF + body + CRLF;
    assert w == line + CRLF + (body + CRLF);
    FindCRLFAfter(line, body + CRLF);
  }

  /**
   * One call of `strtok($s, ' ')`: leading spaces are skipped, the token runs
   * up to the next space or the end, and a string of spaces has no token.
   * The second component is where the next `strtok(' ')` carries on.
   */
  function NextToken(s: string): (r: (Option<string>, string))
    ensures r.0.Some? ==> |r.0.value| > 0 && NoSpace(r.0.value)
    ensures |r.1| < |s| || (r.0.None? && r.1 == [])
  {
    if s == [] then (None, [])
    else if s[0] == ' ' then NextToken(s[1..])
    else
      var k := SpaceFree(s);
      (Some(s[..k]), s[k..])
  }

  /** The length of the run of non-space characters that `s` starts with. */
  function SpaceFree(s: string): (k: nat)
    ensures k <= |s| && NoSpace(s[..k])
    ensures k < |s| ==> s[k] == ' '
  {
    if s == [] || s[0] == ' ' then 0
    else
      var k := 1 + SpaceFree(s[1..]);
      assert s[..k] == [s[0]] + s[1..][..k - 1];
      k
  }

  /** Every token successive `strtok` calls return, in order. */
  function Tokens(s: string): (ts: seq<string>)
    ensures forall i :: 0 <= i < |ts| ==> |ts[i]| > 0 && NoSpace(ts[i])
    decreases |s|
  {
    var (t, rest) := NextToken(s);
    if t.None? then [] else [t.value] + Tokens(rest)
  }

  /** The result of the `k`-th `strtok` call on a line (PHP's `false` is `None`). */
  function TokenAt(line: Option<string>, k: nat): (t: Option<string>)
    ensures t.Some? ==> line.Some? && |t.value| > 0 && NoSpace(t.value)
    ensures line.Some? ==> (t.Some? <==> k < |Tokens(line.value)|)
  {
    if line.Some? && k < |Tokens(line.value)| then Some(Tokens(line.value)[k]) else None
  }

  lemma SpaceFreeOf(word: string, rest: string)
    requires NoSpace(word)
    requires rest == [] || rest[0] == ' '
    ensures SpaceFree(word + rest) == |word|
    decreases |word|
  {
    if word != [] {
      assert (word + rest)[1..] == word[1..] + rest;
      SpaceFreeOf(word[1..], rest);
    } else {
      assert word + rest == rest;
    }
  }

  /** `strtok` splits words joined by single spaces back into those words. */
  lemma {:induction false} TokensOfWords(words: seq<string>)
    requires forall i :: 0 <= i < |words| ==> |words[i]| > 0 && NoSpace(words[i])
    ensures Tokens(Unwords(words)) == words
    decreases |words|, 0
  {
    if words != [] {
      var w := words[0];
      var tail := Spaced(words[1..]);
      assert Unwords(words) == w + tail;
      assert tail == [] || tail[0] == ' ';
      SpaceFreeOf(w, tail);
      assert (w + tail)[..|w|] == w && (w + tail)[|w|..] == tail;
      assert NextToken(w + tail) == (Some(w), tail);
      TokensOfSpaced(words[1..]);
    }
  }

  lemma {:induction false} TokensOfSpaced(words: seq<string>)
    requires forall i :: 0 <= i < |words| ==> |words[i]| > 0 && NoSpace(words[i])
    ensures Tokens(Spaced(words)) == words
    decreases |words|, 1
  {
    if words == [] {
      assert Spaced(words) == [];
    } else {
      var s := Spaced(words);
      assert s == " " + Unwords(words);
      assert NextToken(s) == NextToken(Unwords(words)) by { assert s[1..] == Unwords(words); }
      assert Tokens(s) == Tokens(Unwords(words));
      TokensOfWords(words);
    }
  }

  /** Words joined by single spaces. */
  function Unwords(words: seq<string>): string {
    if words == [] then "" else words[0] + Spaced(words[1..])
  }

  /** Each word preceded by one space. */
  function Spaced(words: seq<string>): string {
    if words == [] then "" else " " + words[0] + Spaced(words[1..])
  }

  lemma Unwords2(a: string, b: string)
    ensures Unwords([a, b]) == a + " " + b
  {
    assert [a, b][1..] == [b];
    assert Spaced([b]) == " " + b + Spaced([]);
  }

  lemma Unwords3(a: string, b: string, c: string)
    ensures Unwords([a, b, c]) == a + " " + b + " " + c
  {
    assert [a, b, c][1..] == [b, c] && [b, c][1..] == [c];
    assert Spaced([c]) == " " + c;
  }

  lemma Unwords4(a: string, b: string, c: string, d: string)
    ensures Unwords([a, b, c, d]) == a + " " + b + " " + c + " " + d
  {
    assert [a, b, c, d][1..] == [b, c, d] && [b, c, d][1..] == [c, d] && [c, d][1..] == [d];
    assert Spaced([d]) == " " + d;
    assert Spaced([c, d]) == " " + c + " " + d;
    assert Spaced([b, c, d]) == " " + b + " " + c + " " + d;
  }

  lemma Unwords5(a: string, b: string, c: string, d: string, e: string)
    ensures Unwords([a, b, c, d, e]) == a + " " + b + " " + c + " " + d + " " + e
  {
    assert [a, b, c, d, e][1..] == [b, c, d, e];
    assert [b, c, d, e][1..] == [c, d, e] && [c, d, e][1..] == [d, e] && [d, e][1..] == [e];
    assert Spaced([e]) == " " + e;
    assert Spaced([d, e]) == " " + d + " " + e;
    assert Spaced([c, d, e]) == " " + c + " " + d + " " + e;
    assert Spaced([b, c, d, e]) == " " + b + " " + c + " " + d + " " + e;
  }

  predicate IsLineEnd(c: char) { c == '\r' || c == '\n' }

  /** `rtrim($s, "\r\n")`: drop every trailing CR and LF. */
  function TrimLineEnds(s: string): (r: string)
    ensures |r| <= |s| && r == s[..|r|]
    ensures r == [] || !IsLineEnd(r[|r| - 1])
    ensures forall i :: |r| <= i < |s| ==> IsLineEnd(s[i])
  {
    if s != [] && IsLineEnd(s[|s| - 1]) then TrimLineEnds(s[..|s| - 1]) else s
  }

  /** `rtrim` drops one trailing line end and goes on. */
  lemma TrimOne(s: string, x: char)
    requires IsLineEnd(x)
    ensures TrimLineEnds(s + [x]) == TrimLineEnds(s)
  {
    assert (s + [x])[..|s|] == s;
  }

  /** A body survives `rtrim` of its CRLF terminator exactly when it does not itself end in CR or LF. */
  lemma TrimTerminator(body: string)
    ensures TrimLineEnds(body + CRLF) == body <==> (body == [] || !IsLineEnd(body[|body| - 1]))
  {
    assert body + CRLF == (body + ['\r']) + ['\n'];
    TrimOne(body + ['\r'], '\n');
    TrimOne(body, '\r');
    if body != [] && IsLineEnd(body[|body| - 1]) {
      assert |TrimLineEnds(body)| <= |body| - 1;
    }
  }

  /** A token `strtok` gives back whole: non-empty, no space and no CR. */
  predicate IsWord(w: string) { |w| > 0 && NoSpace(w) && NoCR(w) }

  lemma FormatIntIsWord(i: int)
    ensures IsWord(FormatInt(i))
  {
    var s := FormatInt(i);
    assert forall k :: 0 <= k < |s| ==> IsDigit(s[k]) || s[k] == '-' by {
      if i < 0 {
        forall k | 0 <= k < |s| ensures IsDigit(s[k]) || s[k] == '-' {
          if k > 0 { assert s[k] == s[1..][k - 1]; }
        }
      }
    }
  }

  lemma {:induction false} UnwordsNoCR(words: seq<string>)
    requires forall i :: 0 <= i < |words| ==> IsWord(words[i])
    ensures NoCR(Unwords(words)) && NoCR(Spaced(words))
    decreases |words|
  {
    if words != [] {
      UnwordsNoCR(words[1..]);
      var t := Spaced(words[1..]);
      assert Unwords(words) == words[0] + t;
      assert Spaced(words) == " " + words[0] + t;
    }
  }

  /** `Tokens` and `NoCR` of a command line written as words. */
  lemma CommandLine(words: seq<string>)
    requires forall i :: 0 <= i < |words| ==> IsWord(words[i])
    ensures Tokens(Unwords(words)) == words && NoCR(Unwords(words))
  {
    TokensOfWords(words);
    UnwordsNoCR(words);
  }
}
