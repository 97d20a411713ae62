/**
 * String helpers shared by the model: upper-casing, whitespace trimming,
 * substring search, whitespace splitting and joining, trailing-character
 * stripping, cutting at a character, `{}` placeholder formatting and the
 * code-point ordering of strings.
 */
module Text {

  /**
   * The whitespace of a byte string, which a no-argument byte split cuts at:
   * space, tab, line feed, vertical tab, form feed, carriage return.
   */
  predicate IsSpace(c: char) {
    c == ' ' || ('\t' <= c <= '\r')
  }

  /**
   * The whitespace of a text string, which a no-argument strip removes: the byte
   * whitespace, the information separators, next line, no-break space, and the
   * Unicode space and line/paragraph separators.
   */
  predicate IsWhitespace(c: char) {
    IsSpace(c) || ('\U{1C}' <= c <= '\U{1F}') || c == '\U{85}' || c == '\U{A0}' || c == '\U{1680}'
    || ('\U{2000}' <= c <= '\U{200A}') || c == '\U{2028}' || c == '\U{2029}' || c == '\U{202F}'
    || c == '\U{205F}' || c == '\U{3000}'
  }

  /**
   * The upper-case form of a character, for the letters whose upper-case form is
   * plain ASCII: the ASCII lower-case letters, the dotless i, the long s, the sharp s
   * and the Latin ligatures (the last two expand to several letters). Any other
   * character is kept.
   */
  function UpperOf(c: char): string {
    if 'a' <= c <= 'z' then [(c as int - 32) as char]
    else if c < '\U{DF}' then [c]
    else if c == '\U{131}' then "I"
    else if c == '\U{17F}' then "S"
    else if c == '\U{DF}' then "SS"
    else if c == '\U{FB00}' then "FF"
    else if c == '\U{FB01}' then "FI"
    else if c == '\U{FB02}' then "FL"
    else if c == '\U{FB03}' then "FFI"
    else if c == '\U{FB04}' then "FFL"
    else if c == '\U{FB05}' || c == '\U{FB06}' then "ST"
    else [c]
  }

  /** Upper-casing, character by character. */
  function Upper(s: string): (r: string)
    ensures |s| <= |r| <= 3 * |s|
    decreases |s|
  {
    if s == [] then [] else UpperOf(s[0]) + Upper(s[1..])
  }

  /** Upper-casing a concatenation upper-cases each part. */
  lemma {:induction false} UpperConcat(a: string, b: string)
    ensures Upper(a + b) == Upper(a) + Upper(b)
    decreases |a|
  {
    if a != [] {
      assert (a + b)[0] == a[0];
      assert (a + b)[1..] == a[1..] + b;
      UpperConcat(a[1..], b);
      calc {
        Upper(a + b);
        UpperOf(a[0]) + Upper(a[1..] + b);
        UpperOf(a[0]) + (Upper(a[1..]) + Upper(b));
        (UpperOf(a[0]) + Upper(a[1..])) + Upper(b);
      }
    } else {
      assert a + b == b;
    }
  }

  /** A string whose every character is its own upper-case form is its own upper-cased form. */
  lemma {:induction false} UpperKeeps(s: string)
    requires forall i :: 0 <= i < |s| ==> UpperOf(s[i]) == [s[i]]
    ensures Upper(s) == s
    decreases |s|
  {
    if s != [] {
      UpperKeeps(s[1..]);
      assert [s[0]] + s[1..] == s;
    }
  }

  /** A string of ASCII capital letters is its own upper-cased form. */
  lemma UpperCapitals(s: string)
    requires forall i :: 0 <= i < |s| ==> 'A' <= s[i] <= 'Z'
    ensures Upper(s) == s
  {
    UpperKeeps(s);
  }

  /** Upper-casing twice is upper-casing once. */
  lemma {:induction false} UpperIdempotent(s: string)
    ensures Upper(Upper(s)) == Upper(s)
    decreases |s|
  {
    if s != [] {
      var u := UpperOf(s[0]);
      assert forall i :: 0 <= i < |u| ==> UpperOf(u[i]) == [u[i]];
      UpperKeeps(u);
      UpperConcat(u, Upper(s[1..]));
      UpperIdempotent(s[1..]);
    }
  }

  /** Drops the leading whitespace. */
  function TrimLeft(s: string): (r: string)
    ensures |r| <= |s|
    ensures r == [] || !IsWhitespace(r[0])
    decreases |s|
  {
    if s != [] && IsWhitespace(s[0]) then TrimLeft(s[1..]) else s
  }

  /** The left trim is a suffix, and what it drops is whitespace. */
  lemma {:induction false} TrimLeftDropsSpace(s: string)
    ensures TrimLeft(s) == s[|s| - |TrimLeft(s)|..]
    ensures forall i :: 0 <= i < |s| - |TrimLeft(s)| ==> IsWhitespace(s[i])
    decreases |s|
  {
    if s != [] && IsWhitespace(s[0]) {
      TrimLeftDropsSpace(s[1..]);
      assert s[1..][|s| - 1 - |TrimLeft(s)|..] == s[|s| - |TrimLeft(s)|..];
      forall i | 1 <= i < |s| ensures s[i] == s[1..][i - 1] { }
    }
  }

  /** Drops the trailing whitespace. */
  function TrimRight(s: string): (r: string)
    ensures |r| <= |s| && r == s[..|r|]
    ensures r == [] || !IsWhitespace(r[|r| - 1])
    decreases |s|
  {
    if s != [] && IsWhitespace(s[|s| - 1]) then TrimRight(s[..|s| - 1]) else s
  }

  /** What the right trim drops is whitespace. */
  lemma {:induction false} TrimRightDropsSpace(s: string)
    ensures forall i :: |TrimRight(s)| <= i < |s| ==> IsWhitespace(s[i])
    decreases |s|
  {
    if s != [] && IsWhitespace(s[|s| - 1]) {
      TrimRightDropsSpace(s[..|s| - 1]);
    }
  }

  /** Drops leading and trailing whitespace (the behaviour of a no-argument strip of a text string). */
  function Trim(s: string): string {
    TrimRight(TrimLeft(s))
  }

  /** A string strips to nothing exactly when every character of it is whitespace. */
  lemma TrimEmptyIff(s: string)
    ensures Trim(s) == [] <==> forall i :: 0 <= i < |s| ==> IsWhitespace(s[i])
  {
    var l := TrimLeft(s);
    TrimLeftDropsSpace(s);
    TrimRightDropsSpace(l);
    if Trim(s) != [] {
      assert l != [];
      assert !IsWhitespace(s[|s| - |l|]);
    }
  }

  /** Removes every trailing occurrence of `c` (a one-character right strip). */
  function StripTrailing(s: string, c: char): (r: string)
    ensures |r| <= |s| && r == s[..|r|]
    ensures r == [] || r[|r| - 1] != c
    decreases |s|
  {
    if s != [] && s[|s| - 1] == c then StripTrailing(s[..|s| - 1], c) else s
  }

  /** What the strip drops is copies of `c`. */
  lemma {:induction false} StripDropsOnly(s: string, c: char)
    ensures forall i :: |StripTrailing(s, c)| <= i < |s| ==> s[i] == c
    decreases |s|
  {
    if s != [] && s[|s| - 1] == c {
      StripDropsOnly(s[..|s| - 1], c);
    }
  }

  /** Whether `p` occurs in `s` as a contiguous substring. */
  function Contains(s: string, p: string): bool
    decreases |s|
  {
    if p <= s then true
    else if s == [] then false
    else Contains(s[1..], p)
  }

  /** `p` is contained in `s` exactly when some suffix of `s` starts with `p`. */
  lemma {:induction false} ContainsIff(s: string, p: string)
    ensures Contains(s, p) <==> exists k :: 0 <= k <= |s| && p <= s[k..]
    decreases |s|
  {
    if p <= s {
      assert p <= s[0..];
    } else if s != [] {
      ContainsIff(s[1..], p);
      ShiftSuffixes(s, p);
      if k :| 0 <= k <= |s| && p <= s[k..] {
        assert k != 0 by { assert s[0..] == s; }
      }
    }
  }

  /** A suffix starting with `p` shows that `s` contains `p`. */
  lemma {:induction false} ContainsAt(s: string, p: string, k: nat)
    requires k <= |s| && p <= s[k..]
    ensures Contains(s, p)
    decreases k
  {
    if k > 0 && !(p <= s) {
      assert s[1..][k - 1..] == s[k..];
      ContainsAt(s[1..], p, k - 1);
    }
  }

  lemma ShiftSuffixes(s: string, p: string)
    requires s != []
    ensures (exists k :: 0 <= k <= |s| - 1 && p <= s[1..][k..]) <==> (exists k :: 1 <= k <= |s| && p <= s[k..])
  {
    if k :| 0 <= k <= |s| - 1 && p <= s[1..][k..] {
      assert s[1..][k..] == s[k + 1..];
    }
    if k :| 1 <= k <= |s| && p <= s[k..] {
      assert s[1..][k - 1..] == s[k..];
    }
  }

  /** The part of `s` before the first occurrence of `c` (all of `s` when there is none). */
  function Before(s: string, c: char): (r: string)
    ensures r <= s
    ensures r == s || s[|r|] == c
  {
    if s == [] || s[0] == c then [] else [s[0]] + Before(s[1..], c)
  }

  /** The part before `c` does not hold `c`. */
  lemma {:induction false} BeforeExcludes(s: string, c: char)
    ensures forall i :: 0 <= i < |Before(s, c)| ==> Before(s, c)[i] != c
    decreases |s|
  {
    if s != [] && s[0] != c {
      BeforeExcludes(s[1..], c);
      assert Before(s, c) == [s[0]] + Before(s[1..], c);
    }
  }

  /** A token: non-empty and free of whitespace. */
  predicate IsToken(w: string) {
    w != [] && forall i :: 0 <= i < |w| ==> !IsSpace(w[i])
  }

  /** The longest prefix of `s` that holds no whitespace. */
  function Word(s: string): (r: string)
    ensures r <= s
    ensures r == s || IsSpace(s[|r|])
  {
    if s == [] || IsSpace(s[0]) then [] else [s[0]] + Word(s[1..])
  }

  /** A word holds no whitespace. */
  lemma {:induction false} WordNoSpace(s: string)
    ensures forall i :: 0 <= i < |Word(s)| ==> !IsSpace(Word(s)[i])
    decreases |s|
  {
    if s != [] && !IsSpace(s[0]) {
      WordNoSpace(s[1..]);
      assert Word(s) == [s[0]] + Word(s[1..]);
    }
  }

  /** Drops the leading byte whitespace. */
  function SkipSpace(s: string): (r: string)
    ensures |r| <= |s|
    ensures r == [] || !IsSpace(r[0])
    decreases |s|
  {
    if s != [] && IsSpace(s[0]) then SkipSpace(s[1..]) else s
  }

  /**
   * Splits on runs of byte whitespace and drops empty pieces (the behaviour of a
   * no-argument split of a byte string).
   */
  function SplitWords(s: string): seq<string>
    decreases |s|
  {
    var t := SkipSpace(s);
    if t == [] then []
    else
      var w := Word(t);
      assert w != [];
      [w] + SplitWords(t[|w|..])
  }

  /** Every piece of a split is a token. */
  lemma {:induction false} SplitWordsTokens(s: string)
    ensures forall i :: 0 <= i < |SplitWords(s)| ==> IsToken(SplitWords(s)[i])
    decreases |s|
  {
    var t := SkipSpace(s);
    if t != [] {
      var w := Word(t);
      assert w != [];
      var rest := SplitWords(t[|w|..]);
      var r := SplitWords(s);
      assert r == [w] + rest;
      WordNoSpace(t);
      assert IsToken(w);
      SplitWordsTokens(t[|w|..]);
      forall i | 0 <= i < |r| ensures IsToken(r[i]) {
        if i > 0 {
          assert r[i] == rest[i - 1];
        }
      }
    }
  }

  /** Concatenates `xs` with `sep` between consecutive elements. */
  function Join(xs: seq<string>, sep: string): string {
    if xs == [] then []
    else if |xs| == 1 then xs[0]
    else xs[0] + sep + Join(xs[1..], sep)
  }

  /** A word that starts with a visible character keeps it and goes on with the rest. */
  lemma WordCons(s: string)
    requires s != [] && !IsSpace(s[0])
    ensures Word(s) == [s[0]] + Word(s[1..])
  {
  }

  /** The first word of a token followed by whitespace (or nothing) is the token itself. */
  lemma {:induction false} WordOfToken(w: string, rest: string)
    requires IsToken(w)
    requires rest == [] || IsSpace(rest[0])
    ensures Word(w + rest) == w
    decreases |w|
  {
    var s := w + rest;
    assert s[0] == w[0];
    WordCons(s);
    var v := w[1..];
    assert s[1..] == v + rest;
    if v != [] {
      assert forall i | 0 <= i < |v| :: v[i] == w[i + 1];
      WordOfToken(v, rest);
    }
    assert [w[0]] + v == w;
  }

  lemma SplitLeadingSpace(s: string)
    requires s != [] && IsSpace(s[0])
    ensures SplitWords(s) == SplitWords(s[1..])
  {
  }

  /** Joining tokens with one space and splitting again gives the tokens back. */
  lemma {:induction false} SplitJoin(xs: seq<string>)
    requires forall i :: 0 <= i < |xs| ==> IsToken(xs[i])
    ensures SplitWords(Join(xs, " ")) == xs
    decreases |xs|
  {
    if xs == [] {
    } else if |xs| == 1 {
      SplitToken(xs[0], []);
      assert xs[0] + [] == xs[0];
    } else {
      var w, tail := xs[0], xs[1..];
      var rest := " " + Join(tail, " ");
      assert Join(xs, " ") == w + rest;
      SplitToken(w, rest);
      SplitLeadingSpace(rest);
      assert rest[1..] == Join(tail, " ");
      SplitJoin(tail);
      assert [w] + tail == xs;
    }
  }

  /** Splitting a token followed by whitespace (or nothing) yields the token, then the split of the rest. */
  lemma SplitToken(w: string, rest: string)
    requires IsToken(w)
    requires rest == [] || IsSpace(rest[0])
    ensures SplitWords(w + rest) == [w] + SplitWords(rest)
  {
    var s := w + rest;
    assert SkipSpace(s) == s;
    WordOfToken(w, rest);
    assert s[|w|..] == rest;
  }

  /**
   * Replaces the first `{}` of `template` with `arg` (a one-argument positional format;
   * brace escapes are not interpreted).
   */
  function Format(template: string, arg: string): string
    decreases |template|
  {
    if |template| < 2 then template
    else if template[..2] == "{}" then arg + template[2..]
    else [template[0]] + Format(template[1..], arg)
  }

  /** A non-empty text is its first character followed by the rest. */
  lemma FirstAndRest<T>(a: seq<T>, b: seq<T>, c: seq<T>)
    requires a != []
    ensures [a[0]] + (a[1..] + b + c) == a + b + c
  {
    assert a == [a[0]] + a[1..];
  }

  /** Text without a placeholder, followed by one, does not start with one. */
  lemma NoPlaceholderAhead(pre: string, rest: string)
    requires pre != [] && !Contains(pre, "{}") && "{}" <= rest
    ensures !("{}" <= pre + rest)
  {
    var t := pre + rest;
    if |pre| >= 2 {
      assert t[..2] == pre[..2];
    } else {
      assert t[1] == '{';
    }
  }

  /** Before the first placeholder, formatting copies the template one character at a time. */
  lemma FormatCopiesFirst(pre: string, post: string, arg: string)
    requires pre != [] && !Contains(pre, "{}")
    ensures Format(pre + "{}" + post, arg) == [pre[0]] + Format(pre[1..] + "{}" + post, arg)
  {
    var t := pre + "{}" + post;
    NoPlaceholderAhead(pre, "{}" + post);
    assert t == pre + ("{}" + post);
    assert t[..2] != "{}" by {
      assert !("{}" <= t);
    }
    assert t[1..] == pre[1..] + "{}" + post;
  }

  /** Formatting fills the first placeholder and keeps the text around it. */
  lemma {:induction false} FormatFills(pre: string, post: string, arg: string)
    requires !Contains(pre, "{}")
    ensures Format(pre + "{}" + post, arg) == pre + arg + post
    decreases |pre|
  {
    if pre == [] {
      assert pre + "{}" + post == "{}" + post;
    } else {
      FormatCopiesFirst(pre, post, arg);
      FormatFills(pre[1..], post, arg);
      FirstAndRest(pre, arg, post);
    }
  }

  /** A template without a placeholder is left unchanged. */
  lemma {:induction false} FormatNoPlaceholder(t: string, arg: string)
    requires !Contains(t, "{}")
    ensures Format(t, arg) == t
    decreases |t|
  {
    if |t| >= 2 {
      assert !("{}" <= t) && !Contains(t[1..], "{}");
      FormatNoPlaceholder(t[1..], arg);
    }
  }

  /** Code-point lexicographic order on strings (a proper prefix comes first). */
  predicate Less(a: string, b: string) {
    if a == [] then b != []
    else if b == [] then false
    else if a[0] != b[0] then a[0] < b[0]
    else Less(a[1..], b[1..])
  }

  lemma LessIrreflexive(a: string)
    ensures !Less(a, a)
  {
  }

  /** Any two distinct strings are ordered one way or the other. */
  lemma {:induction false} LessTotal(a: string, b: string)
    requires a != b
    ensures Less(a, b) || Less(b, a)
  {
    if a != [] && b != [] && a[0] == b[0] {
      assert a == [a[0]] + a[1..] && b == [b[0]] + b[1..];
      LessTotal(a[1..], b[1..]);
    }
  }

  lemma {:induction false} LessAsymmetric(a: string, b: string)
    requires Less(a, b)
    ensures !Less(b, a)
  {
    if a != [] && b != [] && a[0] == b[0] {
      LessAsymmetric(a[1..], b[1..]);
    }
  }

  lemma {:induction false} LessTransitive(a: string, b: string, c: string)
    requires Less(a, b) && Less(b, c)
    ensures Less(a, c)
  {
    if a != [] && b != [] && c != [] && a[0] == b[0] && b[0] == c[0] {
      LessTransitive(a[1..], b[1..], c[1..]);
    }
  }

  /** Strictly increasing in code-point order between neighbours. */
  predicate StrictlySorted(xs: seq<string>) {
    forall i :: 0 <= i < |xs| - 1 ==> Less(xs[i], xs[i + 1])
  }

  /** `xs` lists the elements of `s` in increasing order, each once (what sorting a set gives). */
  ghost predicate SortedListOf(xs: seq<string>, s: set<string>) {
    StrictlySorted(xs) && (set x | x in xs) == s && |xs| == |s|
  }

  /** `m` is in `s` and nothing in `s` comes before it. */
  predicate IsLeast(m: string, s: set<string>) {
    m in s && forall x :: x in s ==> !Less(x, m)
  }

  /** Every non-empty finite set of strings has a least element. */
  lemma {:induction false} LeastExists(s: set<string>)
    requires s != {}
    ensures exists m :: IsLeast(m, s)
    decreases |s|
  {
    var y :| y in s;
    var r := s - {y};
    if r == {} {
      assert s == {y};
      LessIrreflexive(y);
      assert IsLeast(y, s);
    } else {
      LeastExists(r);
      var m :| IsLeast(m, r);
      if Less(y, m) {
        forall x | x in s ensures !Less(x, y) {
          if x == y {
            LessIrreflexive(y);
          } else if Less(x, y) {
            LessTransitive(x, y, m);
          }
        }
        assert IsLeast(y, s);
      } else {
        assert IsLeast(m, s);
      }
    }
  }

  /** A set has one least element. */
  lemma LeastUnique(m: string, n: string, s: set<string>)
    requires IsLeast(m, s) && IsLeast(n, s)
    ensures m == n
  {
    if m != n {
      LessTotal(m, n);
    }
  }

  /** The elements of `s` in increasing code-point order (what sorting a set gives). */
  function SortedList(s: set<string>): seq<string>
    decreases |s|
  {
    if s == {} then []
    else
      LeastExists(s);
      assert forall m, n | IsLeast(m, s) && IsLeast(n, s) :: m == n by {
        forall m, n | IsLeast(m, s) && IsLeast(n, s) ensures m == n {
          LeastUnique(m, n, s);
        }
      }
      var m :| IsLeast(m, s);
      [m] + SortedList(s - {m})
  }

  /** Sorting a set lists each of its elements once, in increasing order. */
  lemma {:induction false} SortedListSorts(s: set<string>)
    ensures SortedListOf(SortedList(s), s)
    decreases |s|
  {
    if s != {} {
      LeastExists(s);
      var xs := SortedList(s);
      var m := xs[0];
      var rest := s - {m};
      assert IsLeast(m, s) && xs == [m] + SortedList(rest);
      SortedListSorts(rest);
      var ys := SortedList(rest);
      if ys != [] {
        assert ys[0] in (set x | x in ys);
        LessTotal(m, ys[0]);
      }
      forall i | 0 <= i < |xs| - 1 ensures Less(xs[i], xs[i + 1]) {
        if i > 0 {
          assert xs[i] == ys[i - 1] && xs[i + 1] == ys[i];
        }
      }
      assert (set x | x in xs) == {m} + (set x | x in ys);
    }
  }
}
