/**
 * The string operations of Rust's `str` and Python's `str` that the
 * e-nose bridge and its GUI rely on: trimming, splitting on a separator,
 * splitting on whitespace, reading newline-terminated lines, prefix
 * stripping and substring replacement. Whitespace is ASCII whitespace.
 */
module Text {

  /** Space, tab, line feed, vertical tab, form feed, carriage return. */
  predicate IsSpace(c: char) {
    c == ' ' || '\t' <= c <= '\r'
  }

  predicate NoSpace(s: string) {
    forall i :: 0 <= i < |s| ==> !IsSpace(s[i])
  }

  predicate StartsWith(s: string, p: string) {
    |p| <= |s| && s[..|p|] == p
  }

  predicate EndsWith(s: string, p: string) {
    |p| <= |s| && s[|s| - |p|..] == p
  }

  /** `p` occurs somewhere in `s`. */
  predicate Occurs(s: string, p: string)
    decreases |s|
  {
    StartsWith(s, p) || (s != [] && Occurs(s[1..], p))
  }

  /** Leading whitespace removed: a suffix of `s` that does not start with whitespace. */
  function TrimStart(s: string): (r: string)
    ensures |r| <= |s| && r == s[|s| - |r|..]
    ensures r == [] || !IsSpace(r[0])
    ensures forall i :: 0 <= i < |s| - |r| ==> IsSpace(s[i])
    decreases |s|
  {
    if s != [] && IsSpace(s[0]) then TrimStart(s[1..]) else s
  }

  /** Trailing whitespace removed: a prefix of `s` that does not end with whitespace. */
  function TrimEnd(s: string): (r: string)
    ensures |r| <= |s| && r == s[..|r|]
    ensures r == [] || !IsSpace(r[|r| - 1])
    ensures forall i :: |r| <= i < |s| ==> IsSpace(s[i])
    decreases |s|
  {
    if s != [] && IsSpace(s[|s| - 1]) then TrimEnd(s[..|s| - 1]) else s
  }

  /** Rust `str::trim`, Python `str.strip()`. */
  function Trim(s: string): (r: string)
    ensures r == [] || (!IsSpace(r[0]) && !IsSpace(r[|r| - 1]))
  {
    TrimEnd(TrimStart(s))
  }

  /** A string without whitespace at either end is its own trim. */
  lemma TrimUnchanged(s: string)
    requires s == [] || (!IsSpace(s[0]) && !IsSpace(s[|s| - 1]))
    ensures Trim(s) == s
  {
  }

  /** Trailing whitespace after a string that does not end in whitespace is what TrimEnd removes. */
  lemma {:induction false} TrimEndSpaces(s: string, tail: string)
    requires s == [] || !IsSpace(s[|s| - 1])
    requires forall i :: 0 <= i < |tail| ==> IsSpace(tail[i])
    ensures TrimEnd(s + tail) == s
    decreases |tail|
  {
    if tail == [] {
      assert s + tail == s;
    } else {
      var shorter := tail[..|tail| - 1];
      assert (s + tail)[..|s + tail| - 1] == s + shorter;
      TrimEndSpaces(s, shorter);
    }
  }

  /** Trailing whitespace after a string with clean ends is exactly what trim removes. */
  lemma TrimTrailingSpace(s: string, tail: string)
    requires s != [] && !IsSpace(s[0]) && !IsSpace(s[|s| - 1])
    requires forall i :: 0 <= i < |tail| ==> IsSpace(tail[i])
    ensures Trim(s + tail) == s
  {
    assert (s + tail)[0] == s[0];
    assert TrimStart(s + tail) == s + tail;
    TrimEndSpaces(s, tail);
  }

  /** Position of the first `c` in `s`, or `|s|` when there is none. */
  function IndexOf(s: string, c: char): (i: nat)
    ensures i <= |s|
    ensures i < |s| ==> s[i] == c
    ensures forall j :: 0 <= j < i ==> s[j] != c
  {
    if s == [] then 0 else if s[0] == c then 0 else 1 + IndexOf(s[1..], c)
  }

  /** The first `c` is at `k` when none comes before it and one (or the end) is there. */
  lemma {:induction false} IndexOfAt(s: string, c: char, k: nat)
    requires k <= |s| && (k == |s| || s[k] == c)
    requires forall j :: 0 <= j < k ==> s[j] != c
    ensures IndexOf(s, c) == k
    decreases k
  {
    if k > 0 {
      IndexOfAt(s[1..], c, k - 1);
    }
  }

  /** The pieces joined back together with `sep` between consecutive ones. */
  function Join(parts: seq<string>, sep: char): string
  {
    if parts == [] then []
    else if |parts| == 1 then parts[0]
    else parts[0] + [sep] + Join(parts[1..], sep)
  }

  /**
   * Rust `str::split(c)`, Python `str.split(c)`: the pieces between
   * separators, at least one, none containing the separator, and joined
   * back they give `s` again.
   */
  function Split(s: string, sep: char): (parts: seq<string>)
    ensures |parts| >= 1
    ensures forall k :: 0 <= k < |parts| ==> sep !in parts[k]
    ensures Join(parts, sep) == s
    decreases |s|
  {
    var i := IndexOf(s, sep);
    if i == |s| then [s]
    else
      var rest := Split(s[i + 1..], sep);
      assert Join([s[..i]] + rest, sep) == s[..i] + [sep] + Join(rest, sep);
      assert s == s[..i] + [sep] + s[i + 1..];
      [s[..i]] + rest
  }

  /** Splitting pieces that do not contain the separator, joined by it, gives the pieces back. */
  lemma {:induction false} SplitJoin(parts: seq<string>, sep: char)
    requires |parts| >= 1
    requires forall k :: 0 <= k < |parts| ==> sep !in parts[k]
    ensures Split(Join(parts, sep), sep) == parts
    decreases |parts|
  {
    var s := Join(parts, sep);
    var p0 := parts[0];
    if |parts| == 1 {
      assert s == p0;
      IndexOfAt(s, sep, |s|);
    } else {
      assert s == p0 + [sep] + Join(parts[1..], sep);
      assert forall j :: 0 <= j < |p0| ==> s[j] == p0[j];
      IndexOfAt(s, sep, |p0|);
      assert s[..|p0|] == p0;
      assert s[|p0| + 1..] == Join(parts[1..], sep);
      SplitJoin(parts[1..], sep);
      assert parts == [p0] + parts[1..];
    }
  }

  /** Number of occurrences of `c` in `s`. */
  function Count(s: string, c: char): nat
  {
    if s == [] then 0 else (if s[0] == c then 1 else 0) + Count(s[1..], c)
  }

  lemma {:induction false} CountConcat(a: string, b: string, c: char)
    ensures Count(a + b, c) == Count(a, c) + Count(b, c)
    decreases |a|
  {
    if a != [] {
      assert (a + b)[1..] == a[1..] + b;
      CountConcat(a[1..], b, c);
    } else {
      assert a + b == b;
    }
  }

  lemma {:induction false} CountAbsent(s: string, c: char)
    requires c !in s
    ensures Count(s, c) == 0
    decreases |s|
  {
    if s != [] {
      CountAbsent(s[1..], c);
    }
  }

  /** A split has one more piece than there are separators. */
  lemma {:induction false} SplitCount(s: string, sep: char)
    ensures |Split(s, sep)| == Count(s, sep) + 1
    decreases |s|
  {
    var i := IndexOf(s, sep);
    if i == |s| {
      CountAbsent(s, sep);
    } else {
      assert s == s[..i] + ([sep] + s[i + 1..]);
      CountConcat(s[..i], [sep] + s[i + 1..], sep);
      CountConcat([sep], s[i + 1..], sep);
      assert sep !in s[..i];
      CountAbsent(s[..i], sep);
      assert Count([sep], sep) == 1;
      SplitCount(s[i + 1..], sep);
    }
  }

  /** The first piece of a split is everything before the first separator. */
  lemma SplitHead(s: string, sep: char)
    ensures Split(s, sep)[0] == s[..IndexOf(s, sep)]
  {
  }

  /** Length of the leading run of non-whitespace characters. */
  function TokenLen(s: string): (n: nat)
    ensures n <= |s|
    ensures forall i :: 0 <= i < n ==> !IsSpace(s[i])
    ensures n == |s| || IsSpace(s[n])
  {
    if s == [] || IsSpace(s[0]) then 0 else 1 + TokenLen(s[1..])
  }

  /** The leading token ends at `k` when no whitespace comes before it and whitespace (or the end) is there. */
  lemma {:induction false} TokenLenAt(s: string, k: nat)
    requires k <= |s| && (k == |s| || IsSpace(s[k]))
    requires forall i :: 0 <= i < k ==> !IsSpace(s[i])
    ensures TokenLen(s) == k
    decreases k
  {
    if k > 0 {
      TokenLenAt(s[1..], k - 1);
    }
  }

  /** Rust `str::split_whitespace`: the maximal runs of non-whitespace characters. */
  function Words(s: string): (ws: seq<string>)
    ensures forall k :: 0 <= k < |ws| ==> ws[k] != [] && NoSpace(ws[k])
    decreases |s|
  {
    if s == [] then []
    else if IsSpace(s[0]) then Words(s[1..])
    else
      var n := TokenLen(s);
      [s[..n]] + Words(s[n..])
  }

  /** A string of one token splits into that token alone. */
  lemma {:induction false} WordsOfToken(w: string)
    requires w != [] && NoSpace(w)
    ensures Words(w) == [w]
  {
    TokenLenAt(w, |w|);
    assert w[..|w|] == w;
    assert w[|w|..] == [];
    assert Words(w[|w|..]) == [];
  }

  /**
   * Whitespace separates tokens: a whitespace character between two texts
   * splits the text into the tokens of each side, in order. Together with
   * `WordsOfToken` this fixes `Words` on every input.
   */
  lemma {:induction false} WordsSplit(a: string, c: char, b: string)
    requires IsSpace(c)
    ensures Words(a + [c] + b) == Words(a) + Words(b)
    decreases |a|
  {
    if a == [] {
      WordsSplitEmpty(c, b);
    } else if IsSpace(a[0]) {
      WordsSplit(a[1..], c, b);
      WordsSplitSkip(a, c, b);
    } else if TokenLen(a) == |a| {
      WordsSplitWhole(a, c, b);
    } else {
      WordsSplit(a[TokenLen(a)..], c, b);
      WordsSplitToken(a, c, b);
    }
  }

  lemma WordsSplitEmpty(c: char, b: string)
    requires IsSpace(c)
    ensures Words([] + [c] + b) == Words([]) + Words(b)
  {
    var s := [] + [c] + b;
    assert s[1..] == b;
    WordsSkip(s);
  }

  lemma WordsSplitSkip(a: string, c: char, b: string)
    requires IsSpace(c) && a != [] && IsSpace(a[0])
    requires Words(a[1..] + [c] + b) == Words(a[1..]) + Words(b)
    ensures Words(a + [c] + b) == Words(a) + Words(b)
  {
    var s := a + [c] + b;
    assert s[0] == a[0] && s[1..] == a[1..] + [c] + b;
    WordsSkip(s);
    WordsSkip(a);
  }

  lemma WordsSplitWhole(a: string, c: char, b: string)
    requires IsSpace(c) && a != [] && !IsSpace(a[0]) && TokenLen(a) == |a|
    ensures Words(a + [c] + b) == Words(a) + Words(b)
  {
    var s := a + [c] + b;
    var n := |a|;
    TokenBeforeSpace(a, c, b);
    assert s[0] == a[0];
    WordsLead(s);
    WordsLead(a);
    assert s[n..] == [c] + b && s[n..][1..] == b;
    WordsSkip(s[n..]);
    assert a[n..] == [];
  }

  lemma WordsSplitToken(a: string, c: char, b: string)
    requires IsSpace(c) && a != [] && !IsSpace(a[0]) && TokenLen(a) < |a|
    requires Words(a[TokenLen(a)..] + [c] + b) == Words(a[TokenLen(a)..]) + Words(b)
    ensures Words(a + [c] + b) == Words(a) + Words(b)
  {
    var s := a + [c] + b;
    var n := TokenLen(a);
    TokenBeforeSpace(a, c, b);
    assert s[0] == a[0];
    WordsLead(s);
    WordsLead(a);
    assert s[n..] == a[n..] + [c] + b;
    var head := [a[..n]];
    assert Words(s) == head + (Words(a[n..]) + Words(b));
  }

  /** Leading whitespace is skipped. */
  lemma WordsSkip(s: string)
    requires s != [] && IsSpace(s[0])
    ensures Words(s) == Words(s[1..])
  {
  }

  /** A text starting with a token: that token, then the tokens of the rest. */
  lemma WordsLead(s: string)
    requires s != [] && !IsSpace(s[0])
    ensures Words(s) == [s[..TokenLen(s)]] + Words(s[TokenLen(s)..])
  {
  }

  /** The leading token of a text before a whitespace character is the leading token once more follows. */
  lemma TokenBeforeSpace(a: string, c: char, b: string)
    requires IsSpace(c)
    ensures TokenLen(a + [c] + b) == TokenLen(a)
    ensures (a + [c] + b)[..TokenLen(a)] == a[..TokenLen(a)]
  {
    var s := a + [c] + b;
    var n := TokenLen(a);
    assert forall i :: 0 <= i < n ==> s[i] == a[i];
    assert n < |a| ==> s[n] == a[n];
    assert n == |a| ==> s[n] == c;
    TokenLenAt(s, n);
  }

  /** Two tokens with one space between them split into exactly those two. */
  lemma {:induction false} WordsOfPair(a: string, b: string)
    requires a != [] && NoSpace(a) && b != [] && NoSpace(b)
    ensures Words(a + " " + b) == [a, b]
  {
    var s := a + " " + b;
    assert forall i :: 0 <= i < |a| ==> s[i] == a[i];
    assert s[|a|] == ' ';
    TokenLenAt(s, |a|);
    assert s[..|a|] == a;
    assert s[|a|..] == " " + b;
    assert (" " + b)[1..] == b;
    WordsOfToken(b);
  }

  /** Strip a trailing carriage return, as Rust's line reader does before a line feed. */
  function DropCr(l: string): string
  {
    if l != [] && l[|l| - 1] == '\r' then l[..|l| - 1] else l
  }

  /**
   * Rust `BufRead::lines`: the pieces between line feeds, each without its
   * line feed (and without a carriage return just before it); a final
   * piece without a line feed is a line too, an empty final piece is not.
   */
  function Lines(s: string): (ls: seq<string>)
    ensures forall k :: 0 <= k < |ls| ==> '\n' !in ls[k]
    ensures '\n' !in s && s != [] ==> ls == [s]
    decreases |s|
  {
    if s == [] then []
    else
      var i := IndexOf(s, '\n');
      if i == |s| then [s] else [DropCr(s[..i])] + Lines(s[i + 1..])
  }

  /** A single terminated line reads back as itself. */
  lemma {:induction false} LinesOfOne(t: string)
    requires '\n' !in t
    requires t == [] || t[|t| - 1] != '\r'
    ensures Lines(t + "\n") == [t]
  {
    var s := t + "\n";
    assert forall j :: 0 <= j < |t| ==> s[j] == t[j];
    IndexOfAt(s, '\n', |t|);
    assert s[..|t|] == t;
    assert s[|t| + 1..] == [];
  }

  /** Rust `str::trim_start_matches(p)`: every leading repetition of `p` removed. */
  function TrimStartMatches(s: string, p: string): (r: string)
    requires p != []
    ensures |r| <= |s| && r == s[|s| - |r|..]
    ensures !StartsWith(r, p)
    ensures !StartsWith(s, p) ==> r == s
    decreases |s|
  {
    if StartsWith(s, p) then TrimStartMatches(s[|p|..], p) else s
  }

  /** Only copies of the pattern are removed: one more leading copy changes nothing. */
  lemma TrimStartMatchesPrefix(s: string, p: string)
    requires p != []
    ensures TrimStartMatches(p + s, p) == TrimStartMatches(s, p)
  {
    assert (p + s)[..|p|] == p;
    assert (p + s)[|p|..] == s;
  }

  /** Python `str.replace(pat, rep)`: non-overlapping occurrences replaced left to right. */
  function ReplaceAll(s: string, pat: string, rep: string): (r: string)
    requires pat != []
    ensures |pat| == |rep| ==> |r| == |s|
    decreases |s|
  {
    if |s| < |pat| then s
    else if s[..|pat|] == pat then rep + ReplaceAll(s[|pat|..], pat, rep)
    else [s[0]] + ReplaceAll(s[1..], pat, rep)
  }

  /** Replacing a pattern that does not occur changes nothing. */
  lemma {:induction false} ReplaceAllAbsent(s: string, pat: string, rep: string)
    requires pat != []
    ensures !Occurs(s, pat) ==> ReplaceAll(s, pat, rep) == s
    decreases |s|
  {
    if |s| >= |pat| && !Occurs(s, pat) {
      ReplaceAllAbsent(s[1..], pat, rep);
      assert s == [s[0]] + s[1..];
    }
  }

  /**
   * When the pattern's first character does not occur in `base`, the only
   * occurrence in `base + pat` is the final one, and it alone is replaced.
   */
  lemma {:induction false} ReplaceAllSuffix(base: string, pat: string, rep: string)
    requires pat != [] && pat[0] !in base
    ensures ReplaceAll(base + pat, pat, rep) == base + rep
    decreases |base|
  {
    var s := base + pat;
    if base == [] {
      assert s == pat;
      assert s[|pat|..] == [];
    } else {
      assert s[0] == base[0] != pat[0];
      assert s[..|pat|][0] == s[0];
      assert ReplaceAll(s, pat, rep) == [s[0]] + ReplaceAll(s[1..], pat, rep);
      assert s[1..] == base[1..] + pat;
      assert pat[0] !in base[1..] by {
        assert forall k :: 0 <= k < |base| - 1 ==> base[1..][k] == base[k + 1];
      }
      ReplaceAllSuffix(base[1..], pat, rep);
      assert base + rep == [base[0]] + (base[1..] + rep);
    }
  }
}
