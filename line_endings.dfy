/**
 * `content.replace('\r\n', '\n')`, the rewrite `SSHModuleManager.convert_line_endings_to_unix`
 * applies to a module file before it is copied to the remote host.
 */
module LineEndings {

  /** Python's `s.replace("\r\n", "\n")`: a left-to-right scan that rewrites each
      non-overlapping carriage-return/line-feed pair. */
  function ConvertCrlf(s: string): string
    decreases |s|
  {
    if |s| == 0 then ""
    else if |s| >= 2 && s[0] == '\r' && s[1] == '\n' then "\n" + ConvertCrlf(s[2..])
    else [s[0]] + ConvertCrlf(s[1..])
  }

  /** Python's `s.count("\r\n")`: the number of pairs that scan rewrites. */
  function CrlfCount(s: string): nat
    decreases |s|
  {
    if |s| == 0 then 0
    else if |s| >= 2 && s[0] == '\r' && s[1] == '\n' then 1 + CrlfCount(s[2..])
    else CrlfCount(s[1..])
  }

  /** The reverse convention: every line feed preceded by a carriage return. */
  function ExpandLf(t: string): string
    decreases |t|
  {
    if |t| == 0 then ""
    else if t[0] == '\n' then "\r\n" + ExpandLf(t[1..])
    else [t[0]] + ExpandLf(t[1..])
  }

  /** Python's `s.count(c)` for one character. */
  function Occurrences(s: string, c: char): nat
    decreases |s|
  {
    if |s| == 0 then 0 else (if s[0] == c then 1 else 0) + Occurrences(s[1..], c)
  }

  /** Each rewrite shortens the text by exactly one character. */
  lemma {:induction false} ConvertCrlfLength(s: string)
    ensures |ConvertCrlf(s)| == |s| - CrlfCount(s)
    decreases |s|
  {
    if |s| >= 2 && s[0] == '\r' && s[1] == '\n' {
      ConvertCrlfLength(s[2..]);
    } else if |s| > 0 {
      ConvertCrlfLength(s[1..]);
    }
  }

  /** The only characters removed are the carriage returns of the rewritten pairs: every
      other character occurs as often as before, and the carriage returns once less per
      pair. */
  lemma {:induction false} ConvertCrlfRemovesOnlyCarriageReturns(s: string, c: char)
    ensures Occurrences(ConvertCrlf(s), c) + (if c == '\r' then CrlfCount(s) else 0) == Occurrences(s, c)
    decreases |s|
  {
    if |s| >= 2 && s[0] == '\r' && s[1] == '\n' {
      var rest := s[2..];
      ConvertCrlfRemovesOnlyCarriageReturns(rest, c);
      assert ConvertCrlf(s)[1..] == ConvertCrlf(rest);
      assert s[1..][1..] == rest;
    } else if |s| > 0 {
      ConvertCrlfRemovesOnlyCarriageReturns(s[1..], c);
      assert ConvertCrlf(s)[1..] == ConvertCrlf(s[1..]);
    }
  }

  /** Text with no carriage-return/line-feed pair is left exactly as it was, and
      text with one is always changed. */
  lemma {:induction false} ConvertCrlfUnchangedIff(s: string)
    ensures ConvertCrlf(s) == s <==> CrlfCount(s) == 0
    decreases |s|
  {
    ConvertCrlfLength(s);
    if CrlfCount(s) == 0 && |s| > 0 {
      assert !(|s| >= 2 && s[0] == '\r' && s[1] == '\n');
      ConvertCrlfUnchangedIff(s[1..]);
    }
  }

  lemma {:induction false} ExpandLfHead(t: string)
    requires t != []
    ensures ExpandLf(t) != [] && ExpandLf(t)[0] != '\n'
  {
  }

  /** Converting undoes expanding, for every text: no pair the conversion rewrites
      is one that expanding did not create. */
  lemma {:induction false} ConvertExpandRoundTrip(t: string)
    ensures ConvertCrlf(ExpandLf(t)) == t
    decreases |t|
  {
    if |t| > 0 {
      ConvertExpandRoundTrip(t[1..]);
      var rest := ExpandLf(t[1..]);
      if t[0] == '\n' {
        assert ("\r\n" + rest)[2..] == rest;
      } else {
        var e := [t[0]] + rest;
        if t[0] == '\r' && |t| > 1 {
          ExpandLfHead(t[1..]);
          assert e[1] == rest[0];
        }
        assert e[1..] == rest;
      }
    }
  }

  /** The result can still contain a pair: one conversion of "\r\r\n" leaves "\r\n",
      so converting twice differs from converting once. */
  lemma ConvertCrlfNotIdempotent()
    ensures ConvertCrlf("\r\r\n") == "\r\n"
    ensures ConvertCrlf(ConvertCrlf("\r\r\n")) == "\n"
  {
    assert "\r\r\n"[1..] == "\r\n";
    assert "\r\n"[2..] == "";
  }
}
