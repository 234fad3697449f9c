/** The Python values and `str` methods that the save path relies on, written
    out so that their edge cases (empty strings, trailing separators, the
    characters Python counts as white space or as line boundaries) are explicit. */
module Common {

  datatype Option<T> = None | Some(value: T)

  /** Python's `sep.join(xs)`. */
  function Join(sep: string, xs: seq<string>): string
  {
    if |xs| == 0 then ""
    else if |xs| == 1 then xs[0]
    else xs[0] + sep + Join(sep, xs[1..])
  }

  /** Python's `s.split(c)` for a one-character separator: never empty, and
      an empty piece stands before a leading, and after a trailing, separator. */
  function Split(s: string, c: char): (r: seq<string>)
    ensures |r| >= 1
  {
    if |s| == 0 then [""]
    else
      var rest := Split(s[1..], c);
      if s[0] == c then [""] + rest
      else [[s[0]] + rest[0]] + rest[1..]
  }

  /** `s.split("\n", 1)[0]`: the text before the first line feed. */
  function FirstLine(s: string): string
  {
    Split(s, '\n')[0]
  }

  /** Python's `s.startswith(p)`. */
  predicate StartsWith(s: string, p: string)
  {
    |p| <= |s| && s[..|p|] == p
  }

  /** The bytes Python 2's byte-string `str.strip()` removes: space, "\t",
      "\n", "\r", "\x0b" and "\x0c". The replies it strips are the byte
      strings the editor hands over, so no other character counts. */
  predicate IsSpace(c: char)
  {
    var n := c as int;
    n == 0x20 || (0x09 <= n <= 0x0d)
  }

  /** The characters `unicode.splitlines` treats as line boundaries (with
      "\r\n" as one); the texts split this way come from the database, as
      `unicode`. */
  predicate IsLineBreak(c: char)
  {
    var n := c as int;
    (0x0a <= n <= 0x0d) || (0x1c <= n <= 0x1e) || n == 0x85 || n == 0x2028 || n == 0x2029
  }

  /** Python's `s.lstrip(chars)`: drops the longest prefix made of characters in `chars`. */
  function LStrip(s: string, chars: set<char>): string
  {
    if |s| > 0 && s[0] in chars then LStrip(s[1..], chars) else s
  }

  /** Python's `s.rstrip(chars)`: drops the longest suffix made of characters in `chars`. */
  function RStrip(s: string, chars: set<char>): string
  {
    if |s| > 0 && s[|s| - 1] in chars then RStrip(s[..|s| - 1], chars) else s
  }

  function DropLeadingSpace(s: string): string
  {
    if |s| > 0 && IsSpace(s[0]) then DropLeadingSpace(s[1..]) else s
  }

  function DropTrailingSpace(s: string): string
  {
    if |s| > 0 && IsSpace(s[|s| - 1]) then DropTrailingSpace(s[..|s| - 1]) else s
  }

  /** Python 2's `s.strip()` with no argument, on a byte string. */
  function StripSpace(s: string): string
  {
    DropTrailingSpace(DropLeadingSpace(s))
  }

  /** `str.lower()` and `str.upper()`, on the ASCII letters only. */
  function LowerChar(c: char): char
  {
    if 'A' <= c <= 'Z' then (c as int + 32) as char else c
  }

  function UpperChar(c: char): char
  {
    if 'a' <= c <= 'z' then (c as int - 32) as char else c
  }

  function Lower(s: string): (r: string)
    ensures |r| == |s|
  {
    seq(|s|, i requires 0 <= i < |s| => LowerChar(s[i]))
  }

  function Upper(s: string): (r: string)
    ensures |r| == |s|
  {
    seq(|s|, i requires 0 <= i < |s| => UpperChar(s[i]))
  }

  /** Index of the first line boundary in `s`, or `|s|` when there is none. */
  function FirstBreak(s: string): (i: nat)
    ensures i <= |s|
    ensures forall j :: 0 <= j < i ==> !IsLineBreak(s[j])
    ensures i < |s| ==> IsLineBreak(s[i])
  {
    if |s| == 0 then 0
    else if IsLineBreak(s[0]) then 0
    else 1 + FirstBreak(s[1..])
  }

  /** Python's `s.splitlines()`: no piece for a trailing boundary, none at all for "". */
  function SplitLines(s: string): seq<string>
    decreases |s|
  {
    if |s| == 0 then []
    else
      var i := FirstBreak(s);
      if i == |s| then [s]
      else
        var width := if s[i] == '\r' && i + 1 < |s| && s[i + 1] == '\n' then 2 else 1;
        [s[..i]] + SplitLines(s[i + width..])
  }

  /** A text beginning with a prefix free of line boundaries has a first
      line beginning with that prefix. */
  lemma SplitLinesFirstLine(s: string, p: string)
    requires p != [] && StartsWith(s, p)
    requires forall j :: 0 <= j < |p| ==> !IsLineBreak(p[j])
    ensures SplitLines(s) != [] && StartsWith(SplitLines(s)[0], p)
  {
    assert forall j :: 0 <= j < |p| ==> s[j] == s[..|p|][j];
  }

  /** Bytes that Python 2's `unicode()` decodes with its default codec,
      ASCII; any other byte makes it raise UnicodeDecodeError. */
  predicate Ascii(s: string)
  {
    forall i :: 0 <= i < |s| ==> s[i] as int < 0x80
  }

  // ---------------------------------------------------------------------------
  // join and split undo each other

  lemma JoinCons(sep: string, x: string, xs: seq<string>)
    requires xs != []
    ensures Join(sep, [x] + xs) == x + sep + Join(sep, xs)
  {
    assert ([x] + xs)[1..] == xs;
  }

  lemma {:induction false} SplitWithout(s: string, c: char)
    requires c !in s
    ensures Split(s, c) == [s]
  {
    if |s| > 0 {
      SplitWithout(s[1..], c);
      assert [s[0]] + s[1..] == s;
    }
  }

  /** Splitting at the first separator: the part before it is one piece. */
  lemma {:induction false} SplitAtSeparator(a: string, c: char, b: string)
    requires c !in a
    ensures Split(a + [c] + b, c) == [a] + Split(b, c)
  {
    if |a| == 0 {
      assert a + [c] + b == [c] + b;
      assert ([c] + b)[1..] == b;
    } else {
      SplitAtSeparator(a[1..], c, b);
      assert (a + [c] + b)[1..] == a[1..] + [c] + b;
      assert [a[0]] + a[1..] == a;
    }
  }

  /** `sep.join` followed by `split(sep)` gives the lines back when none of
      them holds the separator; `[]` is the one list this cannot recover,
      since `"".split(c)` is `[""]`. */
  lemma {:induction false} SplitJoin(xs: seq<string>, c: char)
    requires xs != []
    requires forall i :: 0 <= i < |xs| ==> c !in xs[i]
    ensures Split(Join([c], xs), c) == xs
  {
    if |xs| == 1 {
      SplitWithout(xs[0], c);
    } else {
      JoinCons([c], xs[0], xs[1..]);
      SplitJoin(xs[1..], c);
      SplitAtSeparator(xs[0], c, Join([c], xs[1..]));
      assert [xs[0]] + xs[1..] == xs;
    }
  }

  /** `split(sep)` followed by `sep.join` gives every string back. */
  lemma {:induction false} JoinSplit(s: string, c: char)
    ensures Join([c], Split(s, c)) == s
  {
    if |s| > 0 {
      var rest := Split(s[1..], c);
      JoinSplit(s[1..], c);
      if s[0] == c {
        JoinCons([c], "", rest);
      } else if |rest| == 1 {
      } else {
        JoinCons([c], [s[0]] + rest[0], rest[1..]);
        JoinCons([c], rest[0], rest[1..]);
        assert [rest[0]] + rest[1..] == rest;
      }
      assert [s[0]] + s[1..] == s;
    }
  }

  /** The joined text holds the separator exactly when there were two lines or more,
      or one of the lines held it already. */
  lemma {:induction false} JoinHasSeparator(xs: seq<string>, c: char)
    ensures c in Join([c], xs) <==> |xs| > 1 || exists i :: 0 <= i < |xs| && c in xs[i]
  {
    if |xs| > 1 {
      JoinCons([c], xs[0], xs[1..]);
      assert (xs[0] + [c] + Join([c], xs[1..]))[|xs[0]|] == c;
    }
  }

  /** `s.split("\n", 1)[0]` is the part of `s` before its first line feed. */
  lemma {:induction false} FirstLineIsPrefix(s: string)
    ensures |FirstLine(s)| <= |s| && FirstLine(s) == s[..|FirstLine(s)|]
    ensures '\n' !in FirstLine(s)
    ensures |FirstLine(s)| < |s| ==> s[|FirstLine(s)|] == '\n'
  {
    if |s| > 0 && s[0] != '\n' {
      FirstLineIsPrefix(s[1..]);
      var rest := FirstLine(s[1..]);
      assert FirstLine(s) == [s[0]] + rest;
      assert s[..1 + |rest|] == [s[0]] + s[1..][..|rest|];
    }
  }

  /** `lower()` changes only ASCII letters, so it neither makes nor
      removes a byte `unicode()` rejects. */
  lemma LowerAscii(s: string)
    ensures Ascii(Lower(s)) <==> Ascii(s)
  {
    if !Ascii(s) {
      var i :| 0 <= i < |s| && s[i] as int >= 0x80;
      assert Lower(s)[i] == s[i];
    }
  }

  /** `strip()` removes only ASCII white space, so what it leaves decodes
      exactly when its input does. */
  lemma {:induction false} StripSpaceAscii(s: string)
    ensures Ascii(StripSpace(s)) <==> Ascii(s)
  {
    DropLeadingSpaceAscii(s);
    DropTrailingSpaceAscii(DropLeadingSpace(s));
  }

  lemma {:induction false} DropLeadingSpaceAscii(s: string)
    ensures Ascii(DropLeadingSpace(s)) <==> Ascii(s)
  {
    if |s| > 0 && IsSpace(s[0]) {
      DropLeadingSpaceAscii(s[1..]);
      assert s == [s[0]] + s[1..];
      AsciiConcat([s[0]], s[1..]);
    }
  }

  lemma {:induction false} DropTrailingSpaceAscii(s: string)
    ensures Ascii(DropTrailingSpace(s)) <==> Ascii(s)
  {
    if |s| > 0 && IsSpace(s[|s| - 1]) {
      DropTrailingSpaceAscii(s[..|s| - 1]);
      assert s == s[..|s| - 1] + [s[|s| - 1]];
      AsciiConcat(s[..|s| - 1], [s[|s| - 1]]);
    }
  }

  lemma AsciiConcat(a: string, b: string)
    ensures Ascii(a + b) <==> Ascii(a) && Ascii(b)
  {
    if Ascii(a + b) {
      forall i | 0 <= i < |b| ensures b[i] as int < 0x80 {
        assert (a + b)[|a| + i] == b[i];
      }
      forall i | 0 <= i < |a| ensures a[i] as int < 0x80 {
        assert (a + b)[i] == a[i];
      }
    }
  }

  /** Lines joined with an ASCII separator decode exactly when every line does. */
  lemma {:induction false} JoinAscii(sep: string, xs: seq<string>)
    requires Ascii(sep)
    ensures Ascii(Join(sep, xs)) <==> forall i :: 0 <= i < |xs| ==> Ascii(xs[i])
  {
    if |xs| > 1 {
      JoinAscii(sep, xs[1..]);
      AsciiConcat(xs[0] + sep, Join(sep, xs[1..]));
      AsciiConcat(xs[0], sep);
      if forall i :: 1 <= i < |xs| ==> Ascii(xs[i]) {
        assert forall i :: 0 <= i < |xs[1..]| ==> Ascii(xs[1..][i]);
      }
      if forall i :: 0 <= i < |xs[1..]| ==> Ascii(xs[1..][i]) {
        forall i | 1 <= i < |xs| ensures Ascii(xs[i]) {
          assert xs[i] == xs[1..][i - 1];
        }
      }
    }
  }

  // ---------------------------------------------------------------------------
  // splitlines against join, for text whose only line boundary is "\n"

  /** Text in which "\n" is the only line boundary, and which does not end with one. */
  predicate PlainText(s: string)
  {
    (forall i :: 0 <= i < |s| ==> IsLineBreak(s[i]) ==> s[i] == '\n')
    && (|s| > 0 ==> s[|s| - 1] != '\n')
  }

  lemma {:induction false} SplitLinesNonEmpty(s: string)
    requires s != []
    ensures SplitLines(s) != []
  {
  }

  lemma PlainTextSuffix(s: string, k: nat)
    requires PlainText(s) && k <= |s|
    ensures PlainText(s[k..])
  {
    var t := s[k..];
    forall j | 0 <= j < |t| ensures IsLineBreak(t[j]) ==> t[j] == '\n' {
      assert t[j] == s[k + j];
    }
  }

  lemma SplitLinesAtLineFeed(s: string, i: nat)
    requires i < |s| && i == FirstBreak(s) && s[i] == '\n'
    ensures SplitLines(s) == [s[..i]] + SplitLines(s[i + 1..])
  {
    assert s[i] != '\r';
  }

  /** One line of plain text, then "\n", then text that survives the round trip. */
  lemma JoinSplitLinesStep(s: string, i: nat)
    requires i + 1 < |s| && i == FirstBreak(s) && s[i] == '\n'
    requires Join("\n", SplitLines(s[i + 1..])) == s[i + 1..]
    ensures Join("\n", SplitLines(s)) == s
  {
    var rest := s[i + 1..];
    SplitLinesNonEmpty(rest);
    SplitLinesAtLineFeed(s, i);
    JoinCons("\n", s[..i], SplitLines(rest));
    assert s[..i] + "\n" + rest == s;
  }

  /** Displaying a stored text with `splitlines` and saving it back with
      `"\n".join` gives the same text, for plain text. */
  lemma {:induction false} JoinSplitLines(s: string)
    requires PlainText(s)
    ensures Join("\n", SplitLines(s)) == s
    decreases |s|
  {
    if |s| > 0 {
      var i := FirstBreak(s);
      if i < |s| {
        assert s[i] == '\n';
        PlainTextSuffix(s, i + 1);
        JoinSplitLines(s[i + 1..]);
        JoinSplitLinesStep(s, i);
      }
    }
  }

  // ---------------------------------------------------------------------------
  // case and white space

  /** Two names that differ only in the case of ASCII letters upper-case alike. */
  lemma UpperIgnoresCase(s: string)
    ensures Upper(Lower(s)) == Upper(s)
  {
  }
}
