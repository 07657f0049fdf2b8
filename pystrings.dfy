/**
 * The handful of Python `str` operations the command-line tool relies on:
 * `startswith`/`endswith`, `strip`, `lower`, `split(sep)`, `split(sep, 1)`
 * and `sep.join(...)`, all on single-character separators.
 */
module PyStrings {

  /** The characters `str.isspace()` accepts, which is the set `str.strip()` removes. */
  predicate IsSpace(c: char) {
    || c == ' '
    || ('\t' <= c <= '\r')
    || ('\U{1c}' <= c <= '\U{1f}')
    || c == '\U{85}' || c == '\U{a0}' || c == '\U{1680}'
    || ('\U{2000}' <= c <= '\U{200a}')
    || c == '\U{2028}' || c == '\U{2029}' || c == '\U{202f}' || c == '\U{205f}' || c == '\U{3000}'
  }

  predicate StartsWith(s: string, prefix: string) {
    |prefix| <= |s| && s[..|prefix|] == prefix
  }

  predicate EndsWith(s: string, suffix: string) {
    |suffix| <= |s| && s[|s| - |suffix|..] == suffix
  }

  /** True when `s` neither begins nor ends with whitespace (what `strip` leaves behind). */
  predicate Stripped(s: string) {
    s == [] || (!IsSpace(s[0]) && !IsSpace(s[|s| - 1]))
  }

  /** `s.lstrip()`: drops the leading whitespace and nothing else. */
  function LStrip(s: string): (r: string)
    ensures |r| <= |s| && r == s[|s| - |r|..]
    ensures forall k :: 0 <= k < |s| - |r| ==> IsSpace(s[k])
    ensures r == [] || !IsSpace(r[0])
  {
    if |s| > 0 && IsSpace(s[0]) then LStrip(s[1..]) else s
  }

  /** `s.rstrip()`: drops the trailing whitespace and nothing else. */
  function RStrip(s: string): (r: string)
    ensures |r| <= |s| && r == s[..|r|]
    ensures forall k :: |r| <= k < |s| ==> IsSpace(s[k])
    ensures r == [] || !IsSpace(r[|r| - 1])
  {
    if |s| > 0 && IsSpace(s[|s| - 1]) then RStrip(s[..|s| - 1]) else s
  }

  /** `s.strip()`. */
  function Strip(s: string): string {
    RStrip(LStrip(s))
  }

  /** `strip` returns a slice of its input that has no whitespace at either end, and
      everything it cut off is whitespace. */
  lemma StripIsTrimmedSlice(s: string)
    ensures var r := Strip(s);
      exists i, j :: 0 <= i <= j <= |s| && r == s[i..j]
        && (forall k :: 0 <= k < i ==> IsSpace(s[k]))
        && (forall k :: j <= k < |s| ==> IsSpace(s[k]))
        && Stripped(r)
  {
    TrimmedSlice(s, LStrip(s), Strip(s));
  }

  /** What `strip` returns begins and ends with a non-blank, or is empty. */
  lemma StripIsStripped(s: string)
    ensures Stripped(Strip(s))
  {
    var l := LStrip(s);
    var r := RStrip(l);
    if r != [] {
      assert r[0] == l[0];
    }
  }

  /** The same fact for any left trim `l` of `s` and right trim `r` of `l`. */
  lemma TrimmedSlice(s: string, l: string, r: string)
    requires |l| <= |s| && l == s[|s| - |l|..]
    requires forall k :: 0 <= k < |s| - |l| ==> IsSpace(s[k])
    requires l == [] || !IsSpace(l[0])
    requires |r| <= |l| && r == l[..|r|]
    requires forall k :: |r| <= k < |l| ==> IsSpace(l[k])
    requires r == [] || !IsSpace(r[|r| - 1])
    ensures exists i, j :: 0 <= i <= j <= |s| && r == s[i..j]
              && (forall k :: 0 <= k < i ==> IsSpace(s[k]))
              && (forall k :: j <= k < |s| ==> IsSpace(s[k]))
              && Stripped(r)
  {
    var i := |s| - |l|;
    var j := i + |r|;
    assert r == s[i..j];
    forall k | j <= k < |s| ensures IsSpace(s[k]) {
      assert s[k] == l[k - i];
    }
    assert r != [] ==> r[0] == l[0];
  }

  /** Text that is already stripped survives `strip`, also with one blank added on either side. */
  lemma StripPadded(x: string)
    requires Stripped(x)
    ensures Strip(x) == x
    ensures Strip(" " + x) == x
    ensures Strip(" " + x + " ") == x
  {
    assert (" " + x)[1..] == x;
    assert (" " + x + " ")[1..] == x + " ";
    if x != [] {
      assert (x + " ")[..|x|] == x;
    }
  }

  /** `strip` is idempotent. */
  lemma StripIdempotent(s: string)
    ensures Strip(Strip(s)) == Strip(s)
  {
    StripIsStripped(s);
    StripPadded(Strip(s));
  }

  /** Trailing whitespace of a line never reaches into a prefix that ends in a non-blank. */
  lemma {:induction false} RStripKeepsPrefix(p: string, q: string)
    requires p != [] && !IsSpace(p[|p| - 1])
    ensures RStrip(p + q) == p + RStrip(q)
    decreases |q|
  {
    if |q| > 0 && IsSpace(q[|q| - 1]) {
      assert (p + q)[..|p + q| - 1] == p + q[..|q| - 1];
      RStripKeepsPrefix(p, q[..|q| - 1]);
    } else if |q| == 0 {
      assert p + q == p;
    }
  }

  function LowerChar(c: char): char {
    if 'A' <= c <= 'Z' then (c as int + 32) as char else c
  }

  /** `s.lower()` on the ASCII letters. */
  function Lower(s: string): string {
    seq(|s|, i requires 0 <= i < |s| => LowerChar(s[i]))
  }

  /** `s.lower() == "true"` holds exactly for the sixteen spellings of "true" in any letter case. */
  lemma LowerIsTrue(s: string)
    ensures Lower(s) == "true" <==>
      |s| == 4 && s[0] in "tT" && s[1] in "rR" && s[2] in "uU" && s[3] in "eE"
  {
    if Lower(s) == "true" {
      assert |s| == 4;
      forall k | 0 <= k < 4 ensures LowerChar(s[k]) == "true"[k] {
        assert Lower(s)[k] == LowerChar(s[k]);
      }
    }
    if |s| == 4 && s[0] in "tT" && s[1] in "rR" && s[2] in "uU" && s[3] in "eE" {
      assert Lower(s) == "true";
    }
  }

  /** Position of the first `c` in `s`. */
  function IndexOf(s: string, c: char): (i: nat)
    requires c in s
    ensures i < |s| && s[i] == c && c !in s[..i]
  {
    if s[0] == c then 0 else 1 + IndexOf(s[1..], c)
  }

  /** `sep.join(parts)` for a one-character separator. */
  function Join(parts: seq<string>, sep: char): string {
    if |parts| == 0 then ""
    else if |parts| == 1 then parts[0]
    else parts[0] + [sep] + Join(parts[1..], sep)
  }

  /** `s.split(sep)` for a one-character separator: never empty, separator-free pieces,
      and joining them back gives `s`. */
  function Split(s: string, sep: char): (parts: seq<string>)
    ensures |parts| >= 1
    ensures forall k :: 0 <= k < |parts| ==> sep !in parts[k]
    ensures Join(parts, sep) == s
    decreases |s|
  {
    if sep in s then
      var i := IndexOf(s, sep);
      [s[..i]] + Split(s[i + 1..], sep)
    else
      [s]
  }

  /** `s.split(sep)` has more than one piece exactly when `sep` occurs in `s`. */
  lemma SplitMany(s: string, sep: char)
    ensures sep in s <==> |Split(s, sep)| >= 2
  {
    var parts := Split(s, sep);
    if |parts| >= 2 {
      assert s == parts[0] + [sep] + Join(parts[1..], sep);
      assert s[|parts[0]|] == sep;
    }
  }

  /** A prefix without the separator ends up whole in the first piece, and splitting
      at the first separator peels off that prefix. */
  lemma SplitAfterPrefix(p: string, q: string, sep: char)
    requires sep !in p
    ensures Split(p + [sep] + q, sep) == [p] + Split(q, sep)
  {
    var s := p + [sep] + q;
    var i := IndexOf(s, sep);
    assert s[|p|] == sep;
    assert forall k :: 0 <= k < |p| ==> s[k] == p[k];
    assert i == |p|;
    assert s[..i] == p && s[i + 1..] == q;
  }

  lemma SplitAddPrefix(p: string, s: string, sep: char)
    requires sep !in p
    ensures var parts := Split(s, sep);
      Split(p + s, sep) == [p + parts[0]] + parts[1..]
  {
    if sep in s {
      var i := IndexOf(s, sep);
      assert s == s[..i] + [sep] + s[i + 1..];
      assert p + s == (p + s[..i]) + [sep] + s[i + 1..];
      SplitAfterPrefix(s[..i], s[i + 1..], sep);
      SplitAfterPrefix(p + s[..i], s[i + 1..], sep);
    } else {
      assert sep !in p + s;
    }
  }

  /** Splitting undoes joining, for separator-free pieces. */
  lemma {:induction false} SplitJoin(parts: seq<string>, sep: char)
    requires |parts| >= 1
    requires forall k :: 0 <= k < |parts| ==> sep !in parts[k]
    ensures Split(Join(parts, sep), sep) == parts
  {
    if |parts| > 1 {
      var rest := Join(parts[1..], sep);
      assert Join(parts, sep) == parts[0] + [sep] + rest;
      SplitJoin(parts[1..], sep);
      SplitAfterPrefix(parts[0], rest, sep);
      assert [parts[0]] + parts[1..] == parts;
    }
  }

  /** `s.split(sep, 1)`: the text before the first separator and the text after it,
      or `[s]` when there is no separator. */
  function SplitOnce(s: string, sep: char): (parts: seq<string>)
    ensures |parts| == 1 || |parts| == 2
    ensures |parts| == 1 <==> sep !in s
    ensures |parts| == 1 ==> parts[0] == s
    ensures |parts| == 2 ==> parts[0] + [sep] + parts[1] == s && sep !in parts[0]
  {
    if sep in s then
      var i := IndexOf(s, sep);
      assert s == s[..i] + [sep] + s[i + 1..];
      [s[..i], s[i + 1..]]
    else
      [s]
  }

  /** `s.split(sep, 1)` on text whose first separator follows a separator-free prefix. */
  lemma SplitOnceAt(p: string, q: string, sep: char)
    requires sep !in p
    ensures SplitOnce(p + [sep] + q, sep) == [p, q]
  {
    var s := p + [sep] + q;
    var i := IndexOf(s, sep);
    assert s[|p|] == sep;
    assert forall k :: 0 <= k < |p| ==> s[k] == p[k];
    assert i == |p|;
    assert s[..i] == p && s[i + 1..] == q;
  }

  /** Joining keeps out any character that none of the pieces nor the separator holds. */
  lemma {:induction false} JoinExcludes(parts: seq<string>, sep: char, c: char)
    requires c != sep
    requires forall k :: 0 <= k < |parts| ==> c !in parts[k]
    ensures c !in Join(parts, sep)
  {
    if |parts| > 1 {
      JoinExcludes(parts[1..], sep, c);
    }
  }

  /** A join of non-empty pieces ends with the last piece. */
  lemma {:induction false} JoinEndsWithLast(parts: seq<string>, sep: char)
    requires |parts| >= 1
    ensures EndsWith(Join(parts, sep), parts[|parts| - 1])
  {
    if |parts| > 1 {
      JoinEndsWithLast(parts[1..], sep);
      var rest := Join(parts[1..], sep);
      var last := parts[|parts| - 1];
      assert rest[|rest| - |last|..] == last;
      assert (parts[0] + [sep] + rest)[|parts[0]| + 1 + |rest| - |last|..] == last;
    }
  }
}
