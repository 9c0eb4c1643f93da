/**
 * The parts of Go's `strings` package the command layer relies on:
 * `strings.Fields`, which splits caller input into argument tokens, and
 * `strings.TrimSpace`, which cleans captured process output. Both use
 * `unicode.IsSpace`, modelled here in full.
 */
module GoStrings {

  /** `unicode.IsSpace`: the Latin-1 spaces and the Unicode White_Space set. */
  predicate IsSpace(c: char) {
    || ('\t' <= c <= '\r')
    || c == ' '
    || c == '\U{85}'
    || c == '\U{A0}'
    || c == '\U{1680}'
    || ('\U{2000}' <= c <= '\U{200A}')
    || c == '\U{2028}'
    || c == '\U{2029}'
    || c == '\U{202F}'
    || c == '\U{205F}'
    || c == '\U{3000}'
  }

  /** Every character of `s` is white space (the empty string included). */
  predicate Blank(s: string) {
    forall i :: 0 <= i < |s| ==> IsSpace(s[i])
  }

  /** A non-empty run of non-space characters: what `Fields` may return. */
  predicate IsToken(w: string) {
    |w| > 0 && forall i :: 0 <= i < |w| ==> !IsSpace(w[i])
  }

  predicate AllTokens(ws: seq<string>) {
    forall i :: 0 <= i < |ws| ==> IsToken(ws[i])
  }

  /** `sub` occurs somewhere inside `s` (`strings.Contains`). */
  predicate Contains(s: string, sub: string) {
    exists i, j :: 0 <= i <= j <= |s| && s[i..j] == sub
  }

  /** The length of the run of non-space characters that starts `s`. */
  function WordEnd(s: string): (n: nat)
    ensures n <= |s|
    ensures forall i :: 0 <= i < n ==> !IsSpace(s[i])
    ensures n < |s| ==> IsSpace(s[n])
  {
    if s == [] || IsSpace(s[0]) then 0 else 1 + WordEnd(s[1..])
  }

  /**
   * `strings.Fields`: the maximal runs of non-space characters of `s`, in
   * order. No quoting is recognised.
   */
  function Fields(s: string): (ws: seq<string>)
    ensures AllTokens(ws)
    decreases |s|
  {
    if s == [] then []
    else if IsSpace(s[0]) then Fields(s[1..])
    else
      var n := WordEnd(s);
      [s[..n]] + Fields(s[n..])
  }

  /** The characters of `s` that are not white space, in order. */
  function NonSpace(s: string): string {
    if s == [] then []
    else if IsSpace(s[0]) then NonSpace(s[1..])
    else [s[0]] + NonSpace(s[1..])
  }

  function Concat(ws: seq<string>): string {
    if ws == [] then [] else ws[0] + Concat(ws[1..])
  }

  /** The tokens joined by single spaces: the inverse direction of `Fields`. */
  function Unwords(ws: seq<string>): string {
    if ws == [] then []
    else if |ws| == 1 then ws[0]
    else ws[0] + " " + Unwords(ws[1..])
  }

  lemma {:induction false} NonSpaceAppend(a: string, b: string)
    ensures NonSpace(a + b) == NonSpace(a) + NonSpace(b)
    decreases |a|
  {
    if a == [] {
      assert a + b == b;
    } else {
      assert (a + b)[1..] == a[1..] + b;
      NonSpaceAppend(a[1..], b);
    }
  }

  lemma {:induction false} NonSpaceOfToken(w: string)
    requires forall i :: 0 <= i < |w| ==> !IsSpace(w[i])
    ensures NonSpace(w) == w
    decreases |w|
  {
    if w != [] {
      NonSpaceOfToken(w[1..]);
    }
  }

  /** `Fields` returns no token exactly when its input is blank. */
  lemma {:induction false} FieldsEmptyIffBlank(s: string)
    ensures Fields(s) == [] <==> Blank(s)
    decreases |s|
  {
    if s != [] {
      if IsSpace(s[0]) {
        FieldsEmptyIffBlank(s[1..]);
        if Blank(s[1..]) {
          forall i | 0 <= i < |s| ensures IsSpace(s[i]) {
            if i > 0 { assert s[i] == s[1..][i - 1]; }
          }
        } else {
          var k :| 0 <= k < |s[1..]| && !IsSpace(s[1..][k]);
          assert !IsSpace(s[k + 1]);
        }
      }
    }
  }

  /** `Fields` loses only white space: its tokens concatenate to `NonSpace(s)`. */
  lemma {:induction false} FieldsKeepsEveryNonSpace(s: string)
    ensures Concat(Fields(s)) == NonSpace(s)
    decreases |s|
  {
    if s != [] {
      if IsSpace(s[0]) {
        FieldsKeepsEveryNonSpace(s[1..]);
      } else {
        var n := WordEnd(s);
        var w, rest := s[..n], Fields(s[n..]);
        assert Fields(s) == [w] + rest;
        assert ([w] + rest)[1..] == rest;
        FieldsKeepsEveryNonSpace(s[n..]);
        NonSpaceOfToken(w);
        assert s == w + s[n..];
        NonSpaceAppend(w, s[n..]);
        calc {
          Concat(Fields(s));
          w + Concat(rest);
          NonSpace(w) + NonSpace(s[n..]);
          NonSpace(s);
        }
      }
    }
  }

  /** A token followed by nothing or by a space is read back as one field. */
  lemma {:induction false} WordEndOfToken(w: string, rest: string)
    requires IsToken(w)
    requires rest == [] || IsSpace(rest[0])
    ensures WordEnd(w + rest) == |w|
    decreases |w|
  {
    var s := w + rest;
    assert s[0] == w[0] && !IsSpace(s[0]);
    assert WordEnd(s) == 1 + WordEnd(s[1..]);
    if |w| > 1 {
      assert s[1..] == w[1..] + rest;
      assert IsToken(w[1..]);
      WordEndOfToken(w[1..], rest);
    } else {
      assert s[1..] == rest;
    }
  }

  /** A single token splits into itself. */
  lemma FieldsOfToken(w: string)
    requires IsToken(w)
    ensures Fields(w) == [w]
  {
    WordEndOfToken(w, []);
    assert w + [] == w;
    assert w[|w|..] == [];
    assert Fields(w) == [w[..|w|]] + Fields([]);
  }

  /** A run of non-space characters stops at the end of `x` or before it. */
  lemma {:induction false} WordEndBeforeSpace(x: string, rest: string)
    requires rest == [] || IsSpace(rest[0])
    ensures WordEnd(x + rest) == WordEnd(x)
    decreases |x|
  {
    if x == [] {
      assert x + rest == rest;
    } else if !IsSpace(x[0]) {
      assert (x + rest)[1..] == x[1..] + rest;
      WordEndBeforeSpace(x[1..], rest);
    }
  }

  /**
   * Any white-space character separates fields: splitting around one gives
   * the fields of the text before it followed by those of the text after.
   * So tabs, newlines and runs of spaces all split as a single space does.
   */
  lemma {:induction false} FieldsSplitsAtSpace(x: string, c: char, y: string)
    requires IsSpace(c)
    ensures Fields(x + [c] + y) == Fields(x) + Fields(y)
    decreases |x|
  {
    var s := x + [c] + y;
    if x == [] {
      assert s == [c] + y;
      assert s[1..] == y;
    } else if IsSpace(x[0]) {
      assert s[1..] == x[1..] + [c] + y;
      FieldsSplitsAtSpace(x[1..], c, y);
    } else {
      assert s == x + ([c] + y);
      WordEndBeforeSpace(x, [c] + y);
      var n := WordEnd(x);
      assert s[..n] == x[..n];
      assert s[n..] == x[n..] + [c] + y;
      FieldsSplitsAtSpace(x[n..], c, y);
      assert Fields(s) == [x[..n]] + Fields(s[n..]);
      assert Fields(x) == [x[..n]] + Fields(x[n..]);
    }
  }

  /** Splitting tokens joined by single spaces gives the tokens back. */
  lemma {:induction false} FieldsUnwords(ws: seq<string>)
    requires AllTokens(ws)
    ensures Fields(Unwords(ws)) == ws
    decreases |ws|
  {
    if ws == [] {
    } else if |ws| == 1 {
      FieldsOfToken(ws[0]);
    } else {
      var w, tail := ws[0], Unwords(ws[1..]);
      var s := w + " " + tail;
      assert s == w + (" " + tail);
      WordEndOfToken(w, " " + tail);
      assert s[..|w|] == w;
      assert s[|w|..] == " " + tail;
      assert (" " + tail)[1..] == tail;
      FieldsUnwords(ws[1..]);
      assert Fields(s) == [w] + Fields(" " + tail);
      assert Fields(" " + tail) == Fields(tail);
    }
  }

  /** Splitting twice is the same as splitting once. */
  lemma FieldsIdempotent(s: string)
    ensures Fields(Unwords(Fields(s))) == Fields(s)
  {
    FieldsUnwords(Fields(s));
  }

  /** The number of white-space characters `s` starts with. */
  function LeadingSpace(s: string): (n: nat)
    ensures n <= |s|
    ensures forall i :: 0 <= i < n ==> IsSpace(s[i])
    ensures n < |s| ==> !IsSpace(s[n])
  {
    if s == [] || !IsSpace(s[0]) then 0 else 1 + LeadingSpace(s[1..])
  }

  /** The number of white-space characters `s` ends with. */
  function TrailingSpace(s: string): (n: nat)
    ensures n <= |s|
    ensures forall i :: |s| - n <= i < |s| ==> IsSpace(s[i])
    ensures n < |s| ==> !IsSpace(s[|s| - n - 1])
  {
    if s == [] || !IsSpace(s[|s| - 1]) then 0
    else
      var n := TrailingSpace(s[..|s| - 1]);
      assert forall i :: |s| - 1 - n <= i < |s| - 1 ==> s[i] == s[..|s| - 1][i];
      n + 1
  }

  /** `s` without its leading white space. */
  function TrimLeft(s: string): (r: string)
    ensures |r| <= |s| && r == s[|s| - |r|..]
    ensures Blank(s[..|s| - |r|])
    ensures r == [] || !IsSpace(r[0])
  {
    var n := LeadingSpace(s);
    assert forall i :: 0 <= i < n ==> s[..n][i] == s[i];
    s[n..]
  }

  /** `s` without its trailing white space. */
  function TrimRight(s: string): (r: string)
    ensures |r| <= |s| && r == s[..|r|]
    ensures Blank(s[|r|..])
    ensures r == [] || !IsSpace(r[|r| - 1])
  {
    var n := TrailingSpace(s);
    assert forall i :: |s| - n <= i < |s| ==> s[|s| - n..][i - (|s| - n)] == s[i];
    s[..|s| - n]
  }

  /**
   * `strings.TrimSpace`: what is left of `s` after cutting white space from
   * both ends; it neither starts nor ends with a space, is empty exactly when
   * `s` is blank, and is a contiguous piece of `s` flanked by white space.
   */
  function TrimSpace(s: string): (r: string)
    ensures r == [] || (!IsSpace(r[0]) && !IsSpace(r[|r| - 1]))
  {
    TrimRight(TrimLeft(s))
  }

  /**
   * `TrimSpace(s)` is a contiguous piece of `s` with only white space cut
   * away on either side.
   */
  lemma TrimSpaceCutsOnlySpace(s: string)
    ensures exists i ::
              && 0 <= i <= i + |TrimSpace(s)| <= |s|
              && s[i..i + |TrimSpace(s)|] == TrimSpace(s)
              && Blank(s[..i])
              && Blank(s[i + |TrimSpace(s)|..])
  {
    var l := TrimLeft(s);
    var r := TrimRight(l);
    var i := |s| - |l|;
    assert Blank(s[..i]);
    assert s[i..i + |r|] == r by {
      assert s[i..] == l;
      assert l[..|r|] == r;
    }
    assert Blank(s[i + |r|..]) by {
      assert s[i + |r|..] == l[|r|..];
    }
    assert TrimSpace(s) == r;
  }

  /** Captured output trims to nothing exactly when it is blank. */
  lemma {:induction false} TrimSpaceEmptyIffBlank(s: string)
    ensures TrimSpace(s) == [] <==> Blank(s)
  {
    var l := TrimLeft(s);
    if TrimSpace(s) == [] {
      assert Blank(l) by {
        assert l[|TrimRight(l)|..] == l;
      }
      assert l == [];
      assert s[..|s|] == s;
    }
  }

  /** Trimming already-trimmed text changes nothing. */
  lemma TrimSpaceIdempotent(s: string)
    ensures TrimSpace(TrimSpace(s)) == TrimSpace(s)
  {
  }
}
