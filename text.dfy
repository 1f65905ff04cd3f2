/**
 * The string operations the repository takes from Rust's `str` and from
 * the `regex` crate. Strings are sequences of characters; case folding
 * and whitespace are the ASCII subsets of Rust's Unicode rules.
 */
module Text {

  /** `w` occurs in `s` as a contiguous block: Rust's `str::contains`. */
  predicate Contains(s: string, w: string)
    decreases |s|
  {
    w <= s || (|s| > 0 && Contains(s[1..], w))
  }

  /** An occurrence at a known position is an occurrence. */
  lemma {:induction false} ContainsAt(s: string, w: string, i: nat)
    requires i + |w| <= |s| && s[i..i + |w|] == w
    ensures Contains(s, w)
    decreases i
  {
    if i == 0 {
      assert s[..|w|] == w;
    } else {
      assert s[1..][i - 1..i - 1 + |w|] == s[i..i + |w|];
      ContainsAt(s[1..], w, i - 1);
    }
  }

  /** Every occurrence has a position: the converse of ContainsAt. */
  lemma {:induction false} ContainsHasPosition(s: string, w: string) returns (i: nat)
    requires Contains(s, w)
    ensures i + |w| <= |s| && s[i..i + |w|] == w
    decreases |s|
  {
    if w <= s {
      i := 0;
    } else {
      var j := ContainsHasPosition(s[1..], w);
      assert s[1..][j..j + |w|] == s[j + 1..j + 1 + |w|];
      i := j + 1;
    }
  }

  /** An occurrence inside a part is an occurrence inside the whole. */
  lemma ContainsInConcat(a: string, b: string, c: string, w: string)
    requires Contains(b, w)
    ensures Contains(a + b + c, w)
  {
    var i := ContainsHasPosition(b, w);
    assert (a + b + c)[|a| + i..|a| + i + |w|] == b[i..i + |w|];
    ContainsAt(a + b + c, w, |a| + i);
  }

  /** Every character of an occurring word occurs in the text. */
  lemma ContainsHasChars(s: string, w: string, k: nat)
    requires Contains(s, w) && k < |w|
    ensures w[k] in s
  {
    var i := ContainsHasPosition(s, w);
    assert s[i..i + |w|][k] == s[i + k];
  }

  /** A word with a character the text lacks does not occur in it. */
  lemma MissingCharNotContained(s: string, w: string, k: nat)
    requires k < |w| && w[k] !in s
    ensures !Contains(s, w)
  {
    if Contains(s, w) {
      ContainsHasChars(s, w, k);
    }
  }

  function LowerChar(c: char): char
  {
    if 'A' <= c <= 'Z' then (c as int + 32) as char else c
  }

  /** ASCII lower-casing, standing for Rust's `str::to_lowercase`. */
  function Lower(s: string): (r: string)
    ensures |r| == |s|
    ensures forall i :: 0 <= i < |s| ==> r[i] == LowerChar(s[i])
  {
    seq(|s|, i requires 0 <= i < |s| => LowerChar(s[i]))
  }

  /** A text lower-cases to `t` when each of its characters does. */
  lemma LowerIs(s: string, t: string)
    requires |s| == |t| && forall i :: 0 <= i < |s| ==> LowerChar(s[i]) == t[i]
    ensures Lower(s) == t
  {
  }

  /** The characters Rust's `str::trim` removes, restricted to ASCII. */
  predicate IsSpace(c: char)
  {
    c == ' ' || c == '\t' || c == '\n' || c == '\r' || c as int == 11 || c as int == 12
  }

  function TrimStart(s: string): (r: string)
    ensures |r| <= |s| && r == s[|s| - |r|..]
    ensures r == [] || !IsSpace(r[0])
    ensures forall i :: 0 <= i < |s| - |r| ==> IsSpace(s[i])
    decreases |s|
  {
    if |s| > 0 && IsSpace(s[0]) then TrimStart(s[1..]) else s
  }

  function TrimEnd(s: string): (r: string)
    ensures |r| <= |s| && r == s[..|r|]
    ensures r == [] || !IsSpace(r[|r| - 1])
    ensures forall i :: |r| <= i < |s| ==> IsSpace(s[i])
    decreases |s|
  {
    if |s| > 0 && IsSpace(s[|s| - 1]) then TrimEnd(s[..|s| - 1]) else s
  }

  /** Rust's `str::trim`: leading and trailing white space removed. */
  function Trim(s: string): string
  {
    TrimEnd(TrimStart(s))
  }

  /** `parts` joined with `sep` between neighbours: Rust's `join`. */
  function Join(parts: seq<string>, sep: string): string
    decreases |parts|
  {
    if |parts| == 0 then ""
    else if |parts| == 1 then parts[0]
    else parts[0] + sep + Join(parts[1..], sep)
  }

  /** A joined text opens with its first part. */
  lemma JoinStartsWithFirst(parts: seq<string>, sep: string)
    requires |parts| >= 1
    ensures parts[0] <= Join(parts, sep)
  {
  }

  /**
   * Rust's `str::split` with a non-empty string separator: scanning left
   * to right, every occurrence of `sep` that does not overlap an earlier
   * one ends a piece; empty pieces are kept, so the empty string splits
   * into one empty piece.
   */
  function Split(s: string, sep: string): (r: seq<string>)
    requires |sep| > 0
    ensures |r| >= 1
    ensures r[0] <= s
    ensures forall i :: 0 <= i < |r| ==> !Contains(r[i], sep)
    decreases |s|
  {
    if |s| < |sep| then
      assert !Contains(s, sep) by { ShortNotContained(s, sep); }
      [s]
    else if sep <= s then
      var rest := Split(s[|sep|..], sep);
      assert !Contains("", sep);
      [""] + rest
    else
      var rest := Split(s[1..], sep);
      assert !Contains([s[0]] + rest[0], sep) by { ExtendPiece(s, sep, rest[0]); }
      [[s[0]] + rest[0]] + rest[1..]
  }

  /** A text shorter than the word cannot contain it. */
  lemma {:induction false} ShortNotContained(s: string, w: string)
    requires |s| < |w|
    ensures !Contains(s, w)
    decreases |s|
  {
    if |s| > 0 {
      ShortNotContained(s[1..], w);
    }
  }

  /**
   * Prepending the text's first character to a separator-free piece that
   * the rest of the text opens with keeps it separator-free, as long as
   * the text does not open with the separator.
   */
  lemma ExtendPiece(s: string, sep: string, piece: string)
    requires |s| > 0 && !(sep <= s)
    requires piece <= s[1..] && !Contains(piece, sep)
    ensures !Contains([s[0]] + piece, sep)
  {
    var t := [s[0]] + piece;
    assert t[1..] == piece;
  }

  /** Splitting loses nothing: joining the pieces with the separator gives the text back. */
  lemma {:induction false} JoinSplit(s: string, sep: string)
    requires |sep| > 0
    ensures Join(Split(s, sep), sep) == s
    decreases |s|
  {
    if |s| < |sep| {
    } else if sep <= s {
      var rest := Split(s[|sep|..], sep);
      JoinSplit(s[|sep|..], sep);
      assert Split(s, sep) == [""] + rest;
      assert ([""] + rest)[1..] == rest;
      assert s == sep + s[|sep|..];
    } else {
      var rest := Split(s[1..], sep);
      JoinSplit(s[1..], sep);
      assert Split(s, sep) == [[s[0]] + rest[0]] + rest[1..];
      JoinExtendFirst(s[0], rest, sep);
      assert s == [s[0]] + s[1..];
    }
  }

  /** Lengthening the first part at its front lengthens the joined text the same way. */
  lemma JoinExtendFirst(c: char, parts: seq<string>, sep: string)
    requires |parts| >= 1
    ensures Join([[c] + parts[0]] + parts[1..], sep) == [c] + Join(parts, sep)
  {
    var longer := [[c] + parts[0]] + parts[1..];
    if |parts| > 1 {
      assert longer[1..] == parts[1..];
    }
  }

  /** A text without a line break is a single line. */
  lemma {:induction false} SplitNoSeparator(s: string)
    requires '\n' !in s
    ensures Split(s, "\n") == [s]
    decreases |s|
  {
    if |s| >= 1 {
      assert s[0] in s;
      assert !("\n" <= s);
      assert '\n' !in s[1..];
      SplitNoSeparator(s[1..]);
      assert s == [s[0]] + s[1..];
    }
  }

  /** A line, a break and the rest split into that line followed by the rest's lines. */
  lemma {:induction false} SplitAfterLine(line: string, rest: string)
    requires '\n' !in line
    ensures Split(line + "\n" + rest, "\n") == [line] + Split(rest, "\n")
    decreases |line|
  {
    var s := line + "\n" + rest;
    if line == [] {
      assert s == "\n" + rest;
      assert s[1..] == rest;
    } else {
      assert s[0] == line[0] && line[0] in line;
      assert !("\n" <= s);
      assert s[1..] == line[1..] + "\n" + rest;
      assert '\n' !in line[1..];
      SplitAfterLine(line[1..], rest);
      assert [line[0]] + line[1..] == line;
    }
  }

  /** Lines joined with line breaks split back into the same lines. */
  lemma {:induction false} LinesOfJoin(lines: seq<string>)
    requires |lines| >= 1
    requires forall i :: 0 <= i < |lines| ==> '\n' !in lines[i]
    ensures Split(Join(lines, "\n"), "\n") == lines
    decreases |lines|
  {
    SplitNoSeparator(lines[0]);
    if |lines| > 1 {
      LinesOfJoin(lines[1..]);
      SplitAfterLine(lines[0], Join(lines[1..], "\n"));
    }
  }

  /** Every character of a piece of a split occurs in the text that was split. */
  lemma {:induction false} SplitPiecesFromText(s: string, sep: string, i: nat, c: char)
    requires |sep| > 0 && i < |Split(s, sep)| && c in Split(s, sep)[i]
    ensures c in s
    decreases |s|
  {
    if |s| < |sep| {
    } else if sep <= s {
      var rest := Split(s[|sep|..], sep);
      assert Split(s, sep) == [""] + rest;
      SplitPiecesFromText(s[|sep|..], sep, i - 1, c);
    } else {
      var rest := Split(s[1..], sep);
      assert Split(s, sep) == [[s[0]] + rest[0]] + rest[1..];
      if i == 0 {
        if c != s[0] {
          SplitPiecesFromText(s[1..], sep, 0, c);
        }
      } else {
        SplitPiecesFromText(s[1..], sep, i, c);
      }
    }
  }

  /** Trimming removes characters and adds none. */
  lemma TrimKeepsChars(s: string, c: char)
    requires c in Trim(s)
    ensures c in s
  {
    var t := TrimStart(s);
    assert c in t;
  }

  function DigitChar(d: nat): char
    requires d < 10
  {
    "0123456789"[d]
  }

  predicate IsDigits(s: string)
  {
    forall i :: 0 <= i < |s| ==> '0' <= s[i] <= '9'
  }

  /** The number a string of decimal digits denotes, most significant digit first. */
  function DecimalValue(s: string): nat
    requires IsDigits(s)
    decreases |s|
  {
    if s == [] then 0
    else DecimalValue(s[..|s| - 1]) * 10 + (s[|s| - 1] as int - '0' as int)
  }

  /**
   * Decimal rendering of a natural number, as `format!("{}", n)` prints it:
   * digits denoting `n`, with no leading zero except for 0 itself.
   */
  function NatToString(n: nat): (r: string)
    ensures |r| >= 1 && IsDigits(r)
    ensures DecimalValue(r) == n
    ensures n > 0 ==> r[0] != '0'
    ensures n == 0 ==> r == "0"
    decreases n
  {
    if n < 10 then
      var r := [DigitChar(n)];
      assert r[..0] == [];
      r
    else
      var front := NatToString(n / 10);
      var r := front + [DigitChar(n % 10)];
      assert r[..|r| - 1] == front;
      r
  }

  /** Decimal rendering of a signed integer, with a leading '-' when negative. */
  function IntToString(n: int): string
  {
    if n < 0 then "-" + NatToString(-n) else NatToString(n)
  }

  /**
   * The `regex` crate, left abstract: `compiles(p)` says whether
   * `Regex::new(p)` succeeds and `isMatch(p, t)` whether the compiled
   * pattern matches somewhere in `t`.
   */
  datatype RegexEngine = RegexEngine(compiles: string -> bool, isMatch: (string, string) -> bool)
}
