/**
 * The text printed by `--list`: a header, then every supported code in list
 * order, ", " after each code but the last, and a new indented line before
 * the codes at positions 0, 9, 18, ...
 */
module Listing {
  import opened Currencies

  const Header: string := "  List of all supported currency codes:"
  /** Line break and indentation written before every ninth code. */
  const Indent: string := "\n      "
  const Separator: string := ", "

  /** The `code` of every currency, in list order. */
  function Codes(list: seq<Currency>): seq<string> {
    seq(|list|, i requires 0 <= i < |list| => list[i].code)
  }

  /** What one iteration of the loop appends for the code at position `i`. */
  function Entry(codes: seq<string>, i: nat): string
    requires i < |codes|
  {
    (if i % 9 == 0 then Indent else "") + codes[i] + (if i != |codes| - 1 then Separator else "")
  }

  /** The text appended by the first `k` iterations. */
  function Body(codes: seq<string>, k: nat): string
    requires k <= |codes|
  {
    if k == 0 then "" else Body(codes, k - 1) + Entry(codes, k - 1)
  }

  function ListText(list: seq<Currency>): string {
    Header + Body(Codes(list), |list|)
  }

  /** The loop of cli.js that builds `currencyOutprint`. */
  method RenderList(currencies: seq<Currency>) returns (out: string)
    ensures out == ListText(currencies)
  {
    ghost var codes := Codes(currencies);
    out := Header;
    for i := 0 to |currencies|
      invariant out == Header + Body(codes, i)
    {
      ghost var before := out;
      if i % 9 == 0 {
        out := out + "\n      ";
      }
      out := out + currencies[i].code;
      if i != |currencies| - 1 {
        out := out + ", ";
      }
      assert out == before + Entry(codes, i);
      BodyExtend(Header, codes, i);
    }
  }

  /** Appending entry `i` after any prefix extends the body by one iteration. */
  lemma BodyExtend(prefix: string, codes: seq<string>, i: nat)
    requires i < |codes|
    ensures prefix + Body(codes, i) + Entry(codes, i) == prefix + Body(codes, i + 1)
  {
  }

  // ---------------------------------------------------------------------
  // A reference reading of the body: split it back into words.

  predicate IsSeparator(c: char) { c == ',' || c == ' ' || c == '\n' }

  /** A code the splitter reads back as one word. */
  predicate IsWord(w: string) {
    w != [] && forall k :: 0 <= k < |w| ==> !IsSeparator(w[k])
  }

  predicate AllSeparators(s: string) {
    forall k :: 0 <= k < |s| ==> IsSeparator(s[k])
  }

  /** Length of the leading run of non-separator characters. */
  function RunLength(s: string): (n: nat)
    ensures n <= |s|
    ensures forall k :: 0 <= k < n ==> !IsSeparator(s[k])
    ensures n < |s| ==> IsSeparator(s[n])
  {
    if s == [] || IsSeparator(s[0]) then 0 else 1 + RunLength(s[1..])
  }

  /** The maximal runs of non-separator characters of `s`, in order. */
  function Tokens(s: string): seq<string>
    decreases |s|
  {
    if s == [] then []
    else if IsSeparator(s[0]) then Tokens(s[1..])
    else
      var n := RunLength(s);
      [s[..n]] + Tokens(s[n..])
  }

  lemma {:induction false} TokensOfSeparators(s: string)
    requires AllSeparators(s)
    ensures Tokens(s) == []
  {
    if s != [] {
      TokensOfSeparators(s[1..]);
    }
  }

  /** A word followed by nothing or by a separator is read as one run. */
  lemma {:induction false} RunLengthOfWord(w: string, rest: string)
    requires IsWord(w)
    requires rest == [] || IsSeparator(rest[0])
    ensures RunLength(w + rest) == |w|
    decreases |w|
  {
    assert (w + rest)[1..] == w[1..] + rest;
    if |w| > 1 {
      RunLengthOfWord(w[1..], rest);
    }
  }

  /** Splitting distributes over a concatenation cut at a separator. */
  lemma {:induction false} TokensAppend(x: string, y: string)
    requires x == [] || IsSeparator(x[|x| - 1])
    ensures Tokens(x + y) == Tokens(x) + Tokens(y)
    decreases |x|
  {
    if x == [] {
      assert x + y == y;
    } else if IsSeparator(x[0]) {
      assert Tokens(x + y) == Tokens(x[1..] + y) by {
        assert (x + y)[1..] == x[1..] + y;
      }
      TokensAppend(x[1..], y);
    } else {
      var n := RunLength(x);
      assert Tokens(x + y) == [x[..n]] + Tokens(x[n..] + y) by {
        RunLengthPrefix(x, y);
        assert (x + y)[..n] == x[..n];
        assert (x + y)[n..] == x[n..] + y;
      }
      TokensAppend(x[n..], y);
    }
  }

  lemma {:induction false} RunLengthPrefix(x: string, y: string)
    requires RunLength(x) < |x|
    ensures RunLength(x + y) == RunLength(x)
    decreases |x|
  {
    if x != [] && !IsSeparator(x[0]) {
      assert (x + y)[1..] == x[1..] + y;
      RunLengthPrefix(x[1..], y);
    }
  }

  lemma TokensOfEntry(codes: seq<string>, i: nat)
    requires i < |codes| && IsWord(codes[i])
    ensures Tokens(Entry(codes, i)) == [codes[i]]
  {
    var pre := if i % 9 == 0 then Indent else "";
    var suf := if i != |codes| - 1 then Separator else "";
    assert Entry(codes, i) == pre + (codes[i] + suf);
    TokensAppend(pre, codes[i] + suf);
    TokensOfSeparators(pre);
    RunLengthOfWord(codes[i], suf);
    assert (codes[i] + suf)[..|codes[i]|] == codes[i];
    assert (codes[i] + suf)[|codes[i]|..] == suf;
    TokensOfSeparators(suf);
  }

  /** Before the last code, every prefix of the body ends with a separator. */
  lemma BodyEndsWithSeparator(codes: seq<string>, k: nat)
    requires 0 < k < |codes|
    ensures |Body(codes, k)| > 0 && Body(codes, k)[|Body(codes, k)| - 1] == ' '
  {
    var e := Entry(codes, k - 1);
    assert e[|e| - 1] == ' ';
  }

  /**
   * The body of the listing holds every code exactly once, in list order:
   * read back at its separators it gives the codes again.
   */
  lemma {:induction false} BodyTokens(codes: seq<string>, k: nat)
    requires k <= |codes|
    requires forall i :: 0 <= i < |codes| ==> IsWord(codes[i])
    ensures Tokens(Body(codes, k)) == codes[..k]
  {
    if k > 0 {
      BodyTokens(codes, k - 1);
      if k - 1 > 0 { BodyEndsWithSeparator(codes, k - 1); }
      TokensAppend(Body(codes, k - 1), Entry(codes, k - 1));
      TokensOfEntry(codes, k - 1);
      assert codes[..k] == codes[..k - 1] + [codes[k - 1]];
    }
  }

  lemma ListTokens(list: seq<Currency>)
    requires forall i :: 0 <= i < |list| ==> IsWord(list[i].code)
    ensures Tokens(Body(Codes(list), |list|)) == Codes(list)
  {
    var codes := Codes(list);
    assert forall i :: 0 <= i < |codes| ==> IsWord(codes[i]);
    BodyTokens(codes, |codes|);
    assert codes[..|codes|] == codes;
  }

  // ---------------------------------------------------------------------
  // Line breaks and commas, counted character by character.

  /** The number of occurrences of `c` in `s`. */
  function Count(s: string, c: char): nat {
    if s == [] then 0 else (if s[0] == c then 1 else 0) + Count(s[1..], c)
  }

  lemma {:induction false} CountAppend(a: string, b: string, c: char)
    ensures Count(a + b, c) == Count(a, c) + Count(b, c)
  {
    if a == [] {
      assert a + b == b;
    } else {
      assert (a + b)[1..] == a[1..] + b;
      CountAppend(a[1..], b, c);
    }
  }

  lemma {:induction false} CountAbsent(s: string, c: char)
    requires c !in s
    ensures Count(s, c) == 0
  {
    if s != [] {
      CountAbsent(s[1..], c);
    }
  }

  /** A code without a line break or a comma, the only characters counted here. */
  predicate Plain(w: string) {
    '\n' !in w && ',' !in w
  }

  lemma WordCounts(w: string)
    requires Plain(w)
    ensures Count(w, '\n') == 0 && Count(w, ',') == 0
  {
    CountAbsent(w, '\n');
    CountAbsent(w, ',');
  }

  lemma DecorationCounts()
    ensures Count(Indent, '\n') == 1 && Count(Indent, ',') == 0
    ensures Count(Separator, '\n') == 0 && Count(Separator, ',') == 1
  {
    assert Indent == "\n" + Indent[1..];
    CountAppend("\n", Indent[1..], '\n');
    CountAbsent(Indent[1..], '\n');
    CountAbsent(Indent, ',');
    assert Separator == "," + " ";
    CountAppend(",", " ", ',');
    CountAbsent(Separator, '\n');
  }

  lemma EntryCounts(codes: seq<string>, i: nat)
    requires i < |codes| && Plain(codes[i])
    ensures Count(Entry(codes, i), '\n') == if i % 9 == 0 then 1 else 0
    ensures Count(Entry(codes, i), ',') == if i != |codes| - 1 then 1 else 0
  {
    var pre := if i % 9 == 0 then Indent else "";
    var suf := if i != |codes| - 1 then Separator else "";
    CountAppend(pre, codes[i], '\n');
    CountAppend(pre + codes[i], suf, '\n');
    CountAppend(pre, codes[i], ',');
    CountAppend(pre + codes[i], suf, ',');
    WordCounts(codes[i]);
    DecorationCounts();
  }

  /** Line breaks written by the first `k` iterations, one per iteration at a multiple of 9. */
  function LineBreaks(k: nat): nat {
    if k == 0 then 0 else LineBreaks(k - 1) + (if (k - 1) % 9 == 0 then 1 else 0)
  }

  lemma {:induction false} LineBreaksCeil(k: nat)
    ensures LineBreaks(k) == (k + 8) / 9
  {
    if k > 0 {
      LineBreaksCeil(k - 1);
      LinesStep(k - 1);
    }
  }

  lemma LinesStep(j: nat)
    ensures (j + 8) / 9 + (if j % 9 == 0 then 1 else 0) == (j + 9) / 9
  {
    var q, r := j / 9, j % 9;
    assert j == 9 * q + r;
    if r == 0 {
      assert (j + 8) / 9 == q;
      assert (j + 9) / 9 == q + 1;
    } else {
      assert (j + 8) / 9 == q + 1;
      assert (j + 9) / 9 == q + 1;
    }
  }

  /** Iteration `k - 1` appends its entry's line breaks and commas. */
  lemma BodyStep(codes: seq<string>, k: nat)
    requires 0 < k <= |codes| && Plain(codes[k - 1])
    ensures Count(Body(codes, k), '\n') == Count(Body(codes, k - 1), '\n') + LineBreaks(k) - LineBreaks(k - 1)
    ensures Count(Body(codes, k), ',') == Count(Body(codes, k - 1), ',') + if k != |codes| then 1 else 0
  {
    CountAppend(Body(codes, k - 1), Entry(codes, k - 1), '\n');
    CountAppend(Body(codes, k - 1), Entry(codes, k - 1), ',');
    EntryCounts(codes, k - 1);
  }

  /**
   * The first `k` codes occupy ceil(k/9) lines, and every code except the
   * last of the whole list is followed by a comma.
   */
  lemma {:induction false} BodyCounts(codes: seq<string>, k: nat)
    requires k <= |codes|
    requires forall i :: 0 <= i < |codes| ==> Plain(codes[i])
    ensures Count(Body(codes, k), '\n') == (k + 8) / 9
    ensures Count(Body(codes, k), ',') == if k == |codes| && k > 0 then k - 1 else k
  {
    if k > 0 {
      BodyCounts(codes, k - 1);
      BodyStep(codes, k);
      LineBreaksCeil(k);
      LineBreaksCeil(k - 1);
    }
  }

  /** A prefix without `c` adds no occurrences of `c`. */
  lemma CountAfter(prefix: string, s: string, c: char)
    requires c !in prefix
    ensures Count(prefix + s, c) == Count(s, c)
  {
    CountAppend(prefix, s, c);
    CountAbsent(prefix, c);
  }

  /** A list of n codes is printed on ceil(n/9) lines with n-1 commas. */
  lemma ListLayout(list: seq<Currency>)
    requires forall i :: 0 <= i < |list| ==> Plain(list[i].code)
    ensures Count(ListText(list), '\n') == (|list| + 8) / 9
    ensures Count(ListText(list), ',') == if |list| == 0 then 0 else |list| - 1
  {
    var codes := Codes(list);
    assert |codes| == |list| && forall i :: 0 <= i < |codes| ==> Plain(codes[i]);
    BodyCounts(codes, |list|);
    HeaderCounts();
    CountAfter(Header, Body(codes, |list|), '\n');
    CountAfter(Header, Body(codes, |list|), ',');
  }

  /** The header is a single line without commas. */
  lemma HeaderCounts()
    ensures '\n' !in Header && ',' !in Header
  {
  }
}
