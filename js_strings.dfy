/**
 * The two JavaScript string built-ins that the profile handler applies to the
 * comma-separated skills field: String.prototype.split with a one-character
 * separator and String.prototype.trim.
 */
module JsStrings {

  /** The code-point ranges, bounds included, of the WhiteSpace and LineTerminator
      characters of ECMAScript (sections 12.2 and 12.3): tab to carriage return,
      space, no-break space, the other space separators, the line and paragraph
      separators, and the byte order mark. */
  const WhiteSpaceRanges: seq<(int, int)> := [
    (0x09, 0x0D), (0x20, 0x20), (0xA0, 0xA0), (0x1680, 0x1680), (0x2000, 0x200A),
    (0x2028, 0x2029), (0x202F, 0x202F), (0x205F, 0x205F), (0x3000, 0x3000), (0xFEFF, 0xFEFF)]

  /** `n` lies in one of the ranges. */
  predicate InRanges(n: int, ranges: seq<(int, int)>) {
    ranges != [] && (ranges[0].0 <= n <= ranges[0].1 || InRanges(n, ranges[1..]))
  }

  /** A character that String.prototype.trim removes from either end. */
  predicate IsJsWhiteSpace(c: char) {
    InRanges(c as int, WhiteSpaceRanges)
  }

  /** A code point outside every range is not in them. */
  lemma {:induction false} OutsideRanges(n: int, ranges: seq<(int, int)>)
    requires forall i :: 0 <= i < |ranges| ==> n < ranges[i].0 || ranges[i].1 < n
    ensures !InRanges(n, ranges)
  {
    if ranges != [] {
      assert n < ranges[0].0 || ranges[0].1 < n;
      OutsideRanges(n, ranges[1..]);
    }
  }

  /** Printable ASCII other than the space, commas and letters included, is not
      white space. */
  lemma PrintableIsNotWhiteSpace(c: char)
    requires '!' <= c <= '~'
    ensures !IsJsWhiteSpace(c)
  {
    var n := c as int;
    assert 0x21 <= n <= 0x7E;
    OutsideRanges(n, WhiteSpaceRanges);
  }

  /** Every character of `s` from position `lo` up to `hi` is white space. */
  ghost predicate WhiteBetween(s: string, lo: int, hi: int) {
    forall i :: lo <= i < hi && 0 <= i < |s| ==> IsJsWhiteSpace(s[i])
  }

  ghost predicate AllWhiteSpace(s: string) {
    WhiteBetween(s, 0, |s|)
  }

  /** Neither end of `s` is white space. */
  ghost predicate Trimmed(s: string) {
    s == [] || (!IsJsWhiteSpace(s[0]) && !IsJsWhiteSpace(s[|s| - 1]))
  }

  /** The length of the white space that starts `s`: all of it is white space, and
      it is followed by the end of `s` or by a character that is not. */
  function LeadingWhiteSpace(s: string): (n: nat)
    ensures n <= |s| && WhiteBetween(s, 0, n)
    ensures n == |s| || !IsJsWhiteSpace(s[n])
  {
    if s != [] && IsJsWhiteSpace(s[0]) then 1 + LeadingWhiteSpace(s[1..]) else 0
  }

  /** The length of the white space that ends `s`: all of it is white space, and it
      is preceded by the start of `s` or by a character that is not. */
  function TrailingWhiteSpace(s: string): (n: nat)
    ensures n <= |s| && WhiteBetween(s, |s| - n, |s|)
    ensures n == |s| || !IsJsWhiteSpace(s[|s| - n - 1])
  {
    if s != [] && IsJsWhiteSpace(s[|s| - 1]) then 1 + TrailingWhiteSpace(s[..|s| - 1]) else 0
  }

  /** String.prototype.trim: the leading white space goes, then the trailing white
      space of what is left; neither end of the result is white space. */
  function Trim(s: string): (r: string)
    ensures Trimmed(r) && |r| <= |s|
  {
    var a := LeadingWhiteSpace(s);
    var rest := s[a..];
    var m := TrailingWhiteSpace(rest);
    var r := s[a..|s| - m];
    assert r == [] || (r[0] == s[a] && r[|r| - 1] == rest[|rest| - m - 1]);
    r
  }

  /** Trim keeps one contiguous part of `s` and drops only white space around it. */
  lemma {:induction false} TrimDropsOnlyWhiteSpace(s: string)
    ensures var a := LeadingWhiteSpace(s);
      && a + |Trim(s)| <= |s|
      && Trim(s) == s[a..a + |Trim(s)|]
      && WhiteBetween(s, 0, a)
      && WhiteBetween(s, a + |Trim(s)|, |s|)
  {
    var a := LeadingWhiteSpace(s);
    var rest := s[a..];
    var m := TrailingWhiteSpace(rest);
    var b := |s| - m;
    assert Trim(s) == s[a..b];
    forall i | b <= i < |s| ensures IsJsWhiteSpace(s[i]) {
      assert s[i] == rest[i - a];
    }
  }

  /** Every character Trim keeps is a character of its input. */
  lemma {:induction false} TrimKeepsOnlyInputCharacters(s: string)
    ensures forall c :: c in Trim(s) ==> c in s
  {
    TrimDropsOnlyWhiteSpace(s);
    var a := LeadingWhiteSpace(s);
    var t := Trim(s);
    assert forall m :: 0 <= m < |t| ==> t[m] == s[a + m];
  }

  /** A count of leading white space is the only one with the two properties. */
  lemma {:induction false} LeadingWhiteSpaceUnique(s: string, n: nat)
    requires n <= |s| && WhiteBetween(s, 0, n)
    requires n == |s| || !IsJsWhiteSpace(s[n])
    ensures LeadingWhiteSpace(s) == n
  {
    if n > 0 {
      assert IsJsWhiteSpace(s[0]);
      assert forall i :: 0 <= i < |s| - 1 ==> s[1..][i] == s[i + 1];
      LeadingWhiteSpaceUnique(s[1..], n - 1);
    } else if s != [] {
      assert !IsJsWhiteSpace(s[0]);
    }
  }

  /** A count of trailing white space is the only one with the two properties. */
  lemma {:induction false} TrailingWhiteSpaceUnique(s: string, n: nat)
    requires n <= |s| && WhiteBetween(s, |s| - n, |s|)
    requires n == |s| || !IsJsWhiteSpace(s[|s| - n - 1])
    ensures TrailingWhiteSpace(s) == n
  {
    if n > 0 {
      assert IsJsWhiteSpace(s[|s| - 1]);
      var p := s[..|s| - 1];
      assert forall i :: 0 <= i < |p| ==> p[i] == s[i];
      TrailingWhiteSpaceUnique(p, n - 1);
    } else if s != [] {
      assert !IsJsWhiteSpace(s[|s| - 1]);
    }
  }

  /** Trim is characterised uniquely: whatever white space surrounds a trimmed
      string, trimming recovers exactly that string. */
  lemma {:induction false} TrimUnique(a: string, r: string, b: string)
    requires AllWhiteSpace(a) && AllWhiteSpace(b) && Trimmed(r)
    ensures Trim(a + r + b) == r
  {
    var s := a + r + b;
    assert forall i :: 0 <= i < |a| ==> s[i] == a[i];
    assert forall i :: 0 <= i < |r| ==> s[|a| + i] == r[i];
    assert forall i :: 0 <= i < |b| ==> s[|a| + |r| + i] == b[i];
    if r == [] {
      LeadingWhiteSpaceUnique(s, |s|);
    } else {
      LeadingWhiteSpaceUnique(s, |a|);
      var rest := s[|a|..];
      assert rest == r + b;
      assert forall i :: 0 <= i < |b| ==> rest[|r| + i] == b[i];
      TrailingWhiteSpaceUnique(rest, |b|);
      assert s[|a|..|a| + |r|] == r;
    }
  }

  /** A string with no white space at either end is left alone by Trim. */
  lemma {:induction false} TrimOfTrimmed(t: string)
    requires Trimmed(t)
    ensures Trim(t) == t
  {
    assert [] + t + [] == t;
    TrimUnique([], t, []);
  }

  /** Trimming twice is trimming once. */
  lemma {:induction false} TrimIdempotent(s: string)
    ensures Trim(Trim(s)) == Trim(s)
  {
    TrimOfTrimmed(Trim(s));
  }

  /** Number of commas in `s`. */
  function CommaCount(s: string): (n: nat) {
    multiset(s)[',']
  }

  /** String.prototype.split(','): the pieces between consecutive commas, in order,
      with empty pieces kept; even the empty string gives one piece. */
  function Split(s: string): (r: seq<string>)
    ensures r != []
  {
    if s == [] then [""]
    else
      var rest := Split(s[1..]);
      if s[0] == ',' then [""] + rest
      else [[s[0]] + rest[0]] + rest[1..]
  }

  /** There is exactly one more piece than there are commas. */
  lemma {:induction false} SplitCount(s: string)
    ensures |Split(s)| == CommaCount(s) + 1
  {
    if s != [] {
      assert s == [s[0]] + s[1..];
      assert multiset(s) == multiset([s[0]]) + multiset(s[1..]);
      SplitCount(s[1..]);
    }
  }

  /** No piece contains a comma. */
  lemma {:induction false} SplitPiecesCommaFree(s: string)
    ensures forall i :: 0 <= i < |Split(s)| ==> ',' !in Split(s)[i]
  {
    if s != [] {
      SplitPiecesCommaFree(s[1..]);
      var rest := Split(s[1..]);
      if s[0] != ',' {
        assert ',' !in [s[0]] + rest[0];
      }
    }
  }

  /** Array.prototype.join(','), the inverse of Split. */
  function Join(pieces: seq<string>): (s: string)
    requires pieces != []
  {
    if |pieces| == 1 then pieces[0] else pieces[0] + "," + Join(pieces[1..])
  }

  /** Putting a character in front of the first piece puts it in front of the join. */
  lemma {:induction false} JoinConsFirst(c: char, pieces: seq<string>)
    requires pieces != []
    ensures Join([[c] + pieces[0]] + pieces[1..]) == [c] + Join(pieces)
  {
    var q := [[c] + pieces[0]] + pieces[1..];
    if |pieces| > 1 {
      assert q[1..] == pieces[1..];
      assert Join(q) == ([c] + pieces[0]) + "," + Join(pieces[1..]);
    }
  }

  /** Joining the pieces of a split gives back the original string. */
  lemma {:induction false} JoinSplit(s: string)
    ensures Join(Split(s)) == s
  {
    if s != [] {
      var rest := Split(s[1..]);
      JoinSplit(s[1..]);
      if s[0] == ',' {
        assert Split(s) == [""] + rest;
        assert Join(Split(s)) == "" + "," + Join(rest);
      } else {
        assert Split(s) == [[s[0]] + rest[0]] + rest[1..];
        JoinConsFirst(s[0], rest);
      }
      assert s == [s[0]] + s[1..];
    }
  }

  /** A character other than a comma in front of a string joins its first piece. */
  lemma {:induction false} SplitConsChar(c: char, t: string)
    requires c != ','
    ensures Split([c] + t) == [[c] + Split(t)[0]] + Split(t)[1..]
  {
    var u := [c] + t;
    assert u[0] == c && u[1..] == t;
  }

  /** A comma-free prefix joins the first piece. */
  lemma {:induction false} SplitAfterCommaFreePrefix(x: string, t: string)
    requires ',' !in x
    ensures Split(x + t) == [x + Split(t)[0]] + Split(t)[1..]
  {
    var r := Split(t);
    if x == [] {
      assert x + t == t && x + r[0] == r[0];
      assert r == [r[0]] + r[1..];
    } else {
      var y := x[1..] + t;
      assert x + t == [x[0]] + y;
      assert x[0] in x;
      SplitAfterCommaFreePrefix(x[1..], t);
      var q := Split(y);
      assert q[0] == x[1..] + r[0] && q[1..] == r[1..];
      SplitConsChar(x[0], y);
      assert [x[0]] + (x[1..] + r[0]) == x + r[0];
    }
  }

  /** Splitting the join of comma-free pieces gives back the pieces. */
  lemma {:induction false} SplitJoin(pieces: seq<string>)
    requires pieces != []
    requires forall i :: 0 <= i < |pieces| ==> ',' !in pieces[i]
    ensures Split(Join(pieces)) == pieces
  {
    var x := pieces[0];
    if |pieces| == 1 {
      assert x + "" == x;
      SplitAfterCommaFreePrefix(x, "");
    } else {
      var tail := Join(pieces[1..]);
      SplitJoin(pieces[1..]);
      assert x + "," + tail == x + ("," + tail);
      SplitAfterCommaFreePrefix(x, "," + tail);
      assert ("," + tail)[1..] == tail;
      assert x + "" == x;
    }
  }
}
