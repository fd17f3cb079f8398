/** String helpers shared by the readers: tokenising, stripping, joining.
    Strings are sequences of characters; no encoding is modelled. */
module Text {

  /** The characters C's `isspace` accepts, which `std::stoi` skips. */
  predicate IsCSpace(c: char) {
    c == ' ' || c == '\t' || c == '\n' || c == '\r' || c == '\U{000B}' || c == '\U{000C}'
  }

  /** The characters Python's `str.split()` and `str.rstrip()` treat as
      whitespace (the ASCII subset): C's, and the separators 0x1C-0x1F. */
  predicate IsSpace(c: char) {
    IsCSpace(c) || '\U{001C}' <= c <= '\U{001F}'
  }

  predicate IsDigit(c: char) { '0' <= c <= '9' }

  predicate StartsWith(s: string, p: string) { |p| <= |s| && s[..|p|] == p }

  predicate EndsWith(s: string, p: string) { |p| <= |s| && s[|s| - |p|..] == p }

  /** Length of the leading run of characters that are not separators. */
  function RunLength(s: string, sep: char -> bool): (n: nat)
    ensures n <= |s|
    ensures forall i :: 0 <= i < n ==> !sep(s[i])
    ensures n == |s| || sep(s[n])
  {
    if s == [] || sep(s[0]) then 0 else 1 + RunLength(s[1..], sep)
  }

  /** The maximal runs of non-separator characters, in order; empty tokens are
      never produced. With `IsSpace` this is Python's `str.split()`. */
  function Tokens(s: string, sep: char -> bool): (ts: seq<string>)
    decreases |s|
  {
    if s == [] then []
    else if sep(s[0]) then Tokens(s[1..], sep)
    else
      var n := RunLength(s, sep);
      [s[..n]] + Tokens(s[n..], sep)
  }

  /** `str.split()` without arguments. */
  function Words(s: string): seq<string> { Tokens(s, IsSpace) }

  function IsChar(d: char): char -> bool { c => c == d }

  /** Splitting on one delimiter character, dropping empty tokens. */
  function SplitOn(s: string, d: char): seq<string> { Tokens(s, IsChar(d)) }

  /** Every token is non-empty and free of separators. */
  lemma {:induction false} TokensWellFormed(s: string, sep: char -> bool)
    ensures forall k :: 0 <= k < |Tokens(s, sep)| ==> Clean(Tokens(s, sep)[k], sep)
    decreases |s|
  {
    if s == [] {
    } else if sep(s[0]) {
      TokensWellFormed(s[1..], sep);
    } else {
      var n := RunLength(s, sep);
      TokensWellFormed(s[n..], sep);
    }
  }

  predicate Clean(w: string, sep: char -> bool) {
    w != [] && forall i :: 0 <= i < |w| ==> !sep(w[i])
  }

  /** Joins the strings with the separator character between neighbours. */
  function Join(ws: seq<string>, c: char): string {
    if ws == [] then []
    else if |ws| == 1 then ws[0]
    else ws[0] + [c] + Join(ws[1..], c)
  }

  lemma {:induction false} RunLengthOfPrefix(w: string, rest: string, sep: char -> bool)
    requires forall i :: 0 <= i < |w| ==> !sep(w[i])
    requires rest == [] || sep(rest[0])
    ensures RunLength(w + rest, sep) == |w|
    decreases |w|
  {
    if w != [] {
      assert (w + rest)[1..] == w[1..] + rest;
      RunLengthOfPrefix(w[1..], rest, sep);
    }
  }

  /** Splitting inverts joining when every word is clean: the partner of the
      `" ".join(words[1:])` rule of the plot reader. */
  lemma {:induction false} TokensOfJoin(ws: seq<string>, c: char, sep: char -> bool)
    requires sep(c)
    requires forall k :: 0 <= k < |ws| ==> Clean(ws[k], sep)
    ensures Tokens(Join(ws, c), sep) == ws
    decreases |ws|
  {
    if ws == [] {
    } else if |ws| == 1 {
      var w := ws[0];
      RunLengthOfPrefix(w, [], sep);
      assert w + [] == w;
      assert w[|w|..] == [];
    } else {
      var w := ws[0];
      var rest := [c] + Join(ws[1..], c);
      assert Join(ws, c) == w + rest;
      RunLengthOfPrefix(w, rest, sep);
      assert (w + rest)[..|w|] == w;
      assert (w + rest)[|w|..] == rest;
      assert rest[1..] == Join(ws[1..], c);
      TokensOfJoin(ws[1..], c, sep);
      assert ws == [w] + ws[1..];
    }
  }

  /** `str.rstrip()`: drops trailing whitespace. */
  function RStrip(s: string): (r: string)
    ensures StartsWith(s, r)
    ensures r == [] || !IsSpace(r[|r| - 1])
    ensures forall i :: |r| <= i < |s| ==> IsSpace(s[i])
  {
    if s == [] || !IsSpace(s[|s| - 1]) then s else RStrip(s[..|s| - 1])
  }

  /** Drops every leading occurrence of `c`. */
  function TrimLeading(s: string, c: char): (r: string)
    ensures EndsWith(s, r)
    ensures r == [] || r[0] != c
    ensures forall i :: 0 <= i < |s| - |r| ==> s[i] == c
  {
    if s == [] || s[0] != c then s else TrimLeading(s[1..], c)
  }

  /** Drops every trailing character in `cs`. */
  function TrimTrailing(s: string, cs: set<char>): (r: string)
    ensures StartsWith(s, r)
    ensures r == [] || r[|r| - 1] !in cs
    ensures forall i :: |r| <= i < |s| ==> s[i] in cs
  {
    if s == [] || s[|s| - 1] !in cs then s else TrimTrailing(s[..|s| - 1], cs)
  }

  /** Removes every occurrence of the characters in `cs`. */
  function RemoveAll(s: string, cs: set<char>): (r: string)
    ensures |r| <= |s|
    ensures forall i :: 0 <= i < |r| ==> r[i] !in cs
    ensures forall i :: 0 <= i < |s| && s[i] !in cs ==> s[i] in r
  {
    if s == [] then []
    else if s[0] in cs then RemoveAll(s[1..], cs)
    else [s[0]] + RemoveAll(s[1..], cs)
  }

  /** The string truncated or right-padded with spaces to exactly `n` characters. */
  function FitTo(s: string, n: nat): (r: string)
    ensures |r| == n
    ensures forall i :: 0 <= i < n && i < |s| ==> r[i] == s[i]
    ensures forall i :: |s| <= i < n ==> r[i] == ' '
  {
    if |s| >= n then s[..n] else s + Spaces(n - |s|)
  }

  function Spaces(n: nat): (r: string)
    ensures |r| == n && forall i :: 0 <= i < n ==> r[i] == ' '
  {
    seq(n, _ => ' ')
  }

  /** `std::setw(n)` with right alignment: left-padded with spaces; never truncates. */
  function PadLeft(s: string, n: nat): (r: string)
    ensures |r| == if |s| >= n then |s| else n
    ensures EndsWith(r, s)
  {
    if |s| >= n then s else Spaces(n - |s|) + s
  }

  /** `std::setw(n)` with left alignment: right-padded with spaces; never truncates. */
  function PadRight(s: string, n: nat): (r: string)
    ensures |r| == if |s| >= n then |s| else n
    ensures StartsWith(r, s)
  {
    if |s| >= n then s else s + Spaces(n - |s|)
  }
}
