/**
 * The REPL input tokenizer (`CleanInput` in internal/repl/repl.go and its
 * verbatim copy `cleanInput` in repl.go): split a line into its
 * whitespace-separated fields, as `strings.FieldsSeq` does, and lower-case
 * each field.
 */
module Repl {

  /** Go's `unicode.IsSpace`: ASCII `\t \n \v \f \r` and space, U+0085,
      U+00A0 and the other code points with the White_Space property. */
  predicate IsSpace(c: char) {
    || c == ' '
    || ('\t' <= c <= '\r')
    || c == '\U{85}' || c == '\U{A0}' || c == '\U{1680}'
    || ('\U{2000}' <= c <= '\U{200A}')
    || c == '\U{2028}' || c == '\U{2029}' || c == '\U{202F}' || c == '\U{205F}'
    || c == '\U{3000}'
  }

  /** A field: a non-empty run of non-space characters. */
  predicate IsWord(w: string) {
    |w| > 0 && forall i :: 0 <= i < |w| ==> !IsSpace(w[i])
  }

  /** The length of the longest prefix of `s` without white space. */
  function RunLength(s: string): (n: nat)
    ensures n <= |s|
    ensures forall i :: 0 <= i < n ==> !IsSpace(s[i])
    ensures n < |s| ==> IsSpace(s[n])
  {
    if s == [] || IsSpace(s[0]) then 0 else 1 + RunLength(s[1..])
  }

  /** The maximal runs of non-space characters of `s`, left to right. */
  function Fields(s: string): seq<string>
    decreases |s|
  {
    if s == [] then []
    else if IsSpace(s[0]) then Fields(s[1..])
    else
      var n := RunLength(s);
      [s[..n]] + Fields(s[n..])
  }

  /** ASCII lower-casing of one character. */
  function LowerChar(c: char): char {
    if 'A' <= c <= 'Z' then (c as int + 32) as char else c
  }

  /** `strings.ToLower`, restricted to ASCII letters. */
  function Lower(w: string): string {
    seq(|w|, i requires 0 <= i < |w| => LowerChar(w[i]))
  }

  function LowerAll(ws: seq<string>): seq<string> {
    seq(|ws|, i requires 0 <= i < |ws| => Lower(ws[i]))
  }

  /** What the tokenizer returns for an input line. */
  function Clean(s: string): seq<string> {
    LowerAll(Fields(s))
  }

  /** The words of `ws` separated by single spaces. */
  function Join(ws: seq<string>): string
    decreases |ws|
  {
    if ws == [] then ""
    else if |ws| == 1 then ws[0]
    else ws[0] + " " + Join(ws[1..])
  }

  /**
   * The tokenizer loop: one pass over the characters, collecting the current
   * field in `cur` and appending it, lower-cased, to `out` when a space or the
   * end of the line closes it.
   */
  method CleanInput(input: string) returns (out: seq<string>)
    ensures out == Clean(input)
  {
    out := [];
    var cur: string := [];
    var i := 0;
    assert cur + input[i..] == input;
    while i < |input|
      invariant 0 <= i <= |input|
      invariant cur == [] || IsWord(cur)
      invariant Clean(input) == out + Clean(cur + input[i..])
    {
      var c := input[i];
      ghost var rest := input[i..];
      assert rest[1..] == input[i + 1..];
      if !IsSpace(c) {
        assert cur + rest == (cur + [c]) + input[i + 1..];
        cur := cur + [c];
      } else if cur != [] {
        CloseField(cur, rest);
        assert out + ([Lower(cur)] + Clean(input[i + 1..])) == (out + [Lower(cur)]) + Clean(input[i + 1..]);
        out := out + [Lower(cur)];
        cur := [];
        assert cur + input[i + 1..] == input[i + 1..];
      } else {
        assert cur + rest == rest;
        SkipSpace(rest);
        assert cur + input[i + 1..] == input[i + 1..];
      }
      i := i + 1;
    }
    assert cur + input[i..] == cur;
    if cur != [] {
      CloseLastField(cur);
      out := out + [Lower(cur)];
    } else {
      assert Clean(cur) == [];
    }
  }

  /** The scanner step at a space that ends the current field. */
  lemma CloseField(cur: string, rest: string)
    requires IsWord(cur)
    requires rest != [] && IsSpace(rest[0])
    ensures Clean(cur + rest) == [Lower(cur)] + Clean(rest[1..])
  {
    FieldsAfterWord(cur, rest);
    SkipSpace(rest);
    LowerAllAppend([cur], Fields(rest[1..]));
  }

  /** The scanner step at the end of the line with an open field. */
  lemma CloseLastField(cur: string)
    requires IsWord(cur)
    ensures Clean(cur) == [Lower(cur)]
  {
    FieldsAfterWord(cur, []);
    assert cur + [] == cur;
  }

  /** The scanner step at a space that follows a space (or starts the line). */
  lemma SkipSpace(rest: string)
    requires rest != [] && IsSpace(rest[0])
    ensures Fields(rest) == Fields(rest[1..])
    ensures Clean(rest) == Clean(rest[1..])
  {
  }

  lemma LowerAllAppend(a: seq<string>, b: seq<string>)
    ensures LowerAll(a + b) == LowerAll(a) + LowerAll(b)
  {
  }

  // ----- Properties of the field splitter -----

  /** Every field is non-empty and free of white space. */
  lemma {:induction false} FieldsAreWords(s: string)
    ensures forall i :: 0 <= i < |Fields(s)| ==> IsWord(Fields(s)[i])
    decreases |s|
  {
    if s == [] {
    } else if IsSpace(s[0]) {
      FieldsAreWords(s[1..]);
    } else {
      var n := RunLength(s);
      FieldsAreWords(s[n..]);
    }
  }

  /** A word followed by white space or the end of the text is one whole field. */
  lemma {:induction false} RunLengthOfWord(w: string, rest: string)
    requires IsWord(w)
    requires rest == [] || IsSpace(rest[0])
    ensures RunLength(w + rest) == |w|
    decreases |w|
  {
    if |w| > 1 {
      assert (w + rest)[1..] == w[1..] + rest;
      RunLengthOfWord(w[1..], rest);
    } else {
      assert (w + rest)[1..] == rest;
    }
  }

  /** The first field of a word followed by white space (or nothing) is that word. */
  lemma FieldsAfterWord(w: string, rest: string)
    requires IsWord(w)
    requires rest == [] || IsSpace(rest[0])
    ensures Fields(w + rest) == [w] + Fields(rest)
  {
    RunLengthOfWord(w, rest);
    assert (w + rest)[..|w|] == w;
    assert (w + rest)[|w|..] == rest;
  }

  /** A line has no fields exactly when it is empty or all white space. */
  lemma {:induction false} FieldsEmptyIff(s: string)
    ensures Fields(s) == [] <==> forall i :: 0 <= i < |s| ==> IsSpace(s[i])
    decreases |s|
  {
    if s != [] && IsSpace(s[0]) {
      FieldsEmptyIff(s[1..]);
      assert forall i :: 1 <= i < |s| ==> s[i] == s[1..][i - 1];
    }
  }

  /** A white-space character separates: the fields on either side are kept, in order. */
  lemma {:induction false} FieldsSplit(a: string, c: char, b: string)
    requires IsSpace(c)
    ensures Fields(a + [c] + b) == Fields(a) + Fields(b)
    decreases |a|
  {
    var s := a + [c] + b;
    if a == [] {
      assert s[1..] == b;
    } else if IsSpace(a[0]) {
      assert s[1..] == a[1..] + [c] + b;
      FieldsSplit(a[1..], c, b);
    } else {
      var n := RunLength(a);
      var w := a[..n];
      var rest := a[n..];
      assert a == w + rest;
      assert s == w + (rest + [c] + b);
      FieldsAfterWord(w, rest + [c] + b);
      FieldsAfterWord(w, rest);
      FieldsSplit(rest, c, b);
    }
  }

  /** Leading white space is skipped. */
  lemma {:induction false} FieldsSkipLeading(pre: string, s: string)
    requires forall i :: 0 <= i < |pre| ==> IsSpace(pre[i])
    ensures Fields(pre + s) == Fields(s)
    decreases |pre|
  {
    if pre != [] {
      var t := pre + s;
      assert t[0] == pre[0] && IsSpace(t[0]);
      assert t[1..] == pre[1..] + s;
      assert Fields(t) == Fields(t[1..]);
      FieldsSkipLeading(pre[1..], s);
    } else {
      assert pre + s == s;
    }
  }

  /** Leading, trailing and extra white space does not change the fields. */
  lemma FieldsIgnorePadding(pre: string, s: string, post: string)
    requires forall i :: 0 <= i < |pre| ==> IsSpace(pre[i])
    requires forall i :: 0 <= i < |post| ==> IsSpace(post[i])
    ensures Fields(pre + s + post) == Fields(s)
  {
    FieldsSkipLeading(pre, s + post);
    assert pre + s + post == pre + (s + post);
    if post != [] {
      assert s + post == s + [post[0]] + post[1..];
      FieldsSplit(s, post[0], post[1..]);
      FieldsEmptyIff(post[1..]);
    } else {
      assert s + post == s;
    }
  }

  /** Splitting words joined by single spaces gives the words back. */
  lemma {:induction false} FieldsOfJoin(ws: seq<string>)
    requires forall i :: 0 <= i < |ws| ==> IsWord(ws[i])
    ensures Fields(Join(ws)) == ws
    decreases |ws|
  {
    if |ws| == 1 {
      FieldsAfterWord(ws[0], []);
      assert ws[0] + [] == ws[0];
    } else if |ws| > 1 {
      var tail := " " + Join(ws[1..]);
      assert Join(ws) == ws[0] + tail;
      FieldsAfterWord(ws[0], tail);
      assert tail[1..] == Join(ws[1..]);
      FieldsOfJoin(ws[1..]);
    }
  }

  // ----- Properties of the tokenizer -----

  lemma LowerOfWord(w: string)
    requires IsWord(w)
    ensures IsWord(Lower(w))
    ensures Lower(Lower(w)) == Lower(w)
  {
  }

  /** One output word per field; every output word is a lower-case field. */
  lemma CleanShape(s: string)
    ensures |Clean(s)| == |Fields(s)|
    ensures forall i :: 0 <= i < |Clean(s)| ==> IsWord(Clean(s)[i]) && Lower(Clean(s)[i]) == Clean(s)[i]
  {
    FieldsAreWords(s);
    forall i | 0 <= i < |Clean(s)|
      ensures IsWord(Clean(s)[i]) && Lower(Clean(s)[i]) == Clean(s)[i]
    {
      LowerOfWord(Fields(s)[i]);
    }
  }

  /** Empty or white-space-only input gives no tokens, and only such input does. */
  lemma CleanEmptyIff(s: string)
    ensures Clean(s) == [] <==> forall i :: 0 <= i < |s| ==> IsSpace(s[i])
  {
    FieldsEmptyIff(s);
  }

  /** Re-tokenising the tokens joined by single spaces gives the same tokens. */
  lemma CleanIdempotent(s: string)
    ensures Clean(Join(Clean(s))) == Clean(s)
  {
    CleanShape(s);
    FieldsOfJoin(Clean(s));
  }

  /** White space between two parts keeps both parts' tokens, in order. */
  lemma CleanSplit(a: string, c: char, b: string)
    requires IsSpace(c)
    ensures Clean(a + [c] + b) == Clean(a) + Clean(b)
  {
    FieldsSplit(a, c, b);
  }

  /** Leading, trailing and repeated white space does not change the tokens. */
  lemma CleanIgnoresPadding(pre: string, s: string, post: string)
    requires forall i :: 0 <= i < |pre| ==> IsSpace(pre[i])
    requires forall i :: 0 <= i < |post| ==> IsSpace(post[i])
    ensures Clean(pre + s + post) == Clean(s)
  {
    FieldsIgnorePadding(pre, s, post);
  }

  /** Tokenising words joined by spaces lower-cases each of them. */
  lemma CleanOfJoin(ws: seq<string>)
    requires forall i :: 0 <= i < |ws| ==> IsWord(ws[i])
    ensures Clean(Join(ws)) == LowerAll(ws)
  {
    FieldsOfJoin(ws);
  }

  /** Padding and repeated spaces, as in the tokenizer's first test case. */
  lemma CleanExamplePadding()
    ensures Clean("  hello world  ") == ["hello", "world"]
  {
    HelloWorld();
    PaddedHelloWorld();
    CleanIgnoresPadding("  ", "hello world", "  ");
  }

  lemma PaddedHelloWorld()
    ensures "  hello world  " == "  " + "hello world" + "  "
  {
  }

  lemma HelloWorld()
    ensures Clean("hello world") == ["hello", "world"]
  {
    var ws := ["hello", "world"];
    JoinTwo("hello", "world");
    assert Join(ws) == "hello world";
    assert IsWord("hello") && IsWord("world");
    assert forall i :: 0 <= i < |ws| ==> IsWord(ws[i]);
    CleanOfJoin(ws);
    LowerUnchanged("hello");
    LowerUnchanged("world");
  }

  /** Mixed case, as in the tokenizer's fourth test case. */
  lemma CleanExampleMixedCase()
    ensures Clean("MiXeD CaSe WoRdS") == ["mixed", "case", "words"]
  {
    var ws := ["MiXeD", "CaSe", "WoRdS"];
    JoinThree("MiXeD", "CaSe", "WoRdS");
    assert Join(ws) == "MiXeD CaSe WoRdS";
    assert IsWord("MiXeD") && IsWord("CaSe") && IsWord("WoRdS");
    assert forall i :: 0 <= i < |ws| ==> IsWord(ws[i]);
    CleanOfJoin(ws);
    MixedCaseWords();
  }

  lemma JoinTwo(a: string, b: string)
    ensures Join([a, b]) == a + " " + b
  {
    assert [a, b][1..] == [b];
  }

  lemma JoinThree(a: string, b: string, c: string)
    ensures Join([a, b, c]) == a + " " + b + " " + c
  {
    assert [a, b, c][1..] == [b, c];
    JoinTwo(b, c);
  }

  lemma LowerUnchanged(w: string)
    requires forall i :: 0 <= i < |w| ==> !('A' <= w[i] <= 'Z')
    ensures Lower(w) == w
  {
  }

  lemma MixedCaseWords()
    ensures Lower("MiXeD") == "mixed" && Lower("CaSe") == "case" && Lower("WoRdS") == "words"
  {
  }
}
