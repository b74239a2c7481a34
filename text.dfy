/** String helpers: ASCII character classes (the regular expressions of the
  * demos), ASCII lower-casing, substring search, trimming and splitting. */
module Text {
  predicate IsLower(c: char) { 'a' <= c <= 'z' }
  predicate IsUpper(c: char) { 'A' <= c <= 'Z' }
  predicate IsDigit(c: char) { '0' <= c <= '9' }
  predicate IsAlnum(c: char) { IsLower(c) || IsUpper(c) || IsDigit(c) }

  /** Some character of `s` belongs to the class `p` (a regular-expression test). */
  predicate Has(s: string, p: char -> bool) {
    exists i :: 0 <= i < |s| && p(s[i])
  }

  /** String.prototype.toLowerCase restricted to ASCII letters. */
  function LowerChar(c: char): (r: char)
    ensures !IsUpper(r)
    ensures IsUpper(c) ==> IsLower(r) && r as int == c as int + 32
    ensures !IsUpper(c) ==> r == c
  {
    if IsUpper(c) then (c as int + 32) as char else c
  }

  function Lower(s: string): (r: string)
    ensures |r| == |s|
    ensures forall i :: 0 <= i < |s| ==> r[i] == LowerChar(s[i])
  {
    seq(|s|, i requires 0 <= i < |s| => LowerChar(s[i]))
  }

  /** Lower-casing twice is lower-casing once. */
  lemma LowerIdempotent(s: string)
    ensures Lower(Lower(s)) == Lower(s)
  {
    assert forall i :: 0 <= i < |s| ==> Lower(Lower(s))[i] == Lower(s)[i];
  }

  /** `needle` occurs in `hay` at position `k`. */
  predicate OccursAt(needle: string, hay: string, k: int) {
    0 <= k && k + |needle| <= |hay| && hay[k..k + |needle|] == needle
  }

  /** String.prototype.includes. */
  predicate Contains(hay: string, needle: string) {
    exists k :: 0 <= k <= |hay| - |needle| && OccursAt(needle, hay, k)
  }

  /** Every string contains the empty string, so an empty search term matches everything. */
  lemma ContainsEmpty(hay: string)
    ensures Contains(hay, "")
  {
    assert OccursAt("", hay, 0);
  }

  /** A string contains itself, and containment carries over to longer strings around it. */
  lemma ContainsIn(needle: string, pre: string, post: string)
    ensures Contains(pre + needle + post, needle)
  {
    assert (pre + needle + post)[|pre|..|pre| + |needle|] == needle;
    assert OccursAt(needle, pre + needle + post, |pre|);
  }

  /** The characters String.prototype.trim removes: the white space and the line
    * terminators of ECMAScript, that is tab, line feed, vertical tab, form feed, carriage
    * return, space, no-break space, the byte order mark, the other Unicode space
    * separators and the line and paragraph separators. */
  predicate IsSpace(c: char) {
    c == '\t' || c == '\n' || c == '\U{000B}' || c == '\U{000C}' || c == '\r' || c == ' ' ||
    c == '\U{00A0}' || c == '\U{FEFF}' || c == '\U{1680}' || '\U{2000}' <= c <= '\U{200A}' ||
    c == '\U{2028}' || c == '\U{2029}' || c == '\U{202F}' || c == '\U{205F}' || c == '\U{3000}'
  }

  function TrimStart(s: string): (r: string)
    ensures |r| <= |s| && r == s[|s| - |r|..]
    ensures r == [] || !IsSpace(r[0])
    ensures forall k :: 0 <= k < |s| - |r| ==> IsSpace(s[k])
  {
    if s != [] && IsSpace(s[0]) then TrimStart(s[1..]) else s
  }

  function TrimEnd(s: string): (r: string)
    ensures |r| <= |s| && r == s[..|r|]
    ensures r == [] || !IsSpace(r[|r| - 1])
    ensures forall k :: |r| <= k < |s| ==> IsSpace(s[k])
  {
    if s != [] && IsSpace(s[|s| - 1]) then TrimEnd(s[..|s| - 1]) else s
  }

  lemma TrimmedOccurs(s: string, t: string, r: string)
    requires |t| <= |s| && t == s[|s| - |t|..]
    requires |r| <= |t| && r == t[..|r|]
    ensures OccursAt(r, s, |s| - |t|)
  {
    var k := |s| - |t|;
    forall i | 0 <= i < |r|
      ensures s[k..k + |r|][i] == r[i]
    {
      assert r[i] == t[i] == s[k + i];
    }
  }

  /** String.prototype.trim: the slice of `s` left once the whitespace at both ends is cut
    * off; it neither starts nor ends with whitespace. */
  function Trim(s: string): (r: string)
    ensures r == [] || (!IsSpace(r[0]) && !IsSpace(r[|r| - 1]))
    ensures exists k :: (OccursAt(r, s, k) &&
      (forall i :: 0 <= i < k ==> IsSpace(s[i])) && (forall i :: k + |r| <= i < |s| ==> IsSpace(s[i])))
  {
    var t := TrimStart(s);
    var r := TrimEnd(t);
    TrimmedOccurs(s, t, r);
    r
  }

  /** String.prototype.split with a one-character separator. */
  function Split(s: string, sep: char): (r: seq<string>)
    ensures |r| >= 1
    ensures forall i :: 0 <= i < |r| ==> sep !in r[i]
    ensures Join(r, sep) == s
  {
    if s == [] then [[]]
    else
      var rest := Split(s[1..], sep);
      if s[0] == sep then [[]] + rest
      else [[s[0]] + rest[0]] + rest[1..]
  }

  /** Array.prototype.join with a one-character separator. */
  function Join(parts: seq<string>, sep: char): string {
    if parts == [] then []
    else if |parts| == 1 then parts[0]
    else parts[0] + [sep] + Join(parts[1..], sep)
  }

  /** Splitting the joined pieces gives the pieces back, when no piece holds the separator. */
  lemma {:induction false} SplitJoin(parts: seq<string>, sep: char)
    requires |parts| >= 1
    requires forall i :: 0 <= i < |parts| ==> sep !in parts[i]
    ensures Split(Join(parts, sep), sep) == parts
  {
    if |parts| == 1 {
      SplitNoSeparator(parts[0], sep);
    } else {
      SplitJoin(parts[1..], sep);
      SplitPrefix(parts[0], Join(parts[1..], sep), sep);
      assert [parts[0]] + parts[1..] == parts;
    }
  }

  lemma {:induction false} SplitNoSeparator(s: string, sep: char)
    requires sep !in s
    ensures Split(s, sep) == [s]
  {
    if s != [] {
      SplitNoSeparator(s[1..], sep);
      assert [s[0]] + s[1..] == s;
    }
  }

  lemma {:induction false} SplitPrefix(p: string, rest: string, sep: char)
    requires sep !in p
    ensures Split(p + [sep] + rest, sep) == [p] + Split(rest, sep)
  {
    var s := p + [sep] + rest;
    if p == [] {
      assert s == [sep] + rest;
      assert s[1..] == rest;
    } else {
      SplitPrefix(p[1..], rest, sep);
      assert s[0] == p[0] && s[1..] == p[1..] + [sep] + rest;
      var tail := Split(s[1..], sep);
      assert tail == [p[1..]] + Split(rest, sep);
      assert Split(s, sep) == [[p[0]] + tail[0]] + tail[1..];
      assert [p[0]] + p[1..] == p;
      assert tail[1..] == Split(rest, sep);
    }
  }

  /** `text` repeated `n` times (used for masks). */
  function Repeat(c: char, n: nat): (r: string)
    ensures |r| == n
    ensures forall i :: 0 <= i < n ==> r[i] == c
  {
    if n == 0 then [] else Repeat(c, n - 1) + [c]
  }
}
