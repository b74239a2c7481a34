/** What the three password checkers of src/tasks/41145 share: the character
  * sets their generators draw from, the five strength levels, and the
  * `Math.floor(Math.random() * n)` index pick with the random number passed in. */
module PasswordCommon {
  import opened Text

  /** "abcdefghijklmnopqrstuvwxyz", "ABCDEFGHIJKLMNOPQRSTUVWXYZ" and "0123456789", each
    * written as its run of consecutive character codes. */
  const LowercaseChars: string := CodeRun(97, 26)
  const UppercaseChars: string := CodeRun(65, 26)
  const NumberChars: string := CodeRun(48, 10)

  /** The `n` characters with codes `first`, `first + 1`, ... */
  function CodeRun(first: nat, n: nat): (r: string)
    requires first + n <= 128
    ensures |r| == n && forall i :: 0 <= i < n ==> r[i] == (first + i) as char
  {
    if n == 0 then [] else CodeRun(first, n - 1) + [(first + n - 1) as char]
  }

  lemma LowercaseCharsExactly(c: char)
    ensures c in LowercaseChars <==> IsLower(c)
  {
    if IsLower(c) {
      assert LowercaseChars[c as int - 97] == c;
    }
  }

  lemma UppercaseCharsExactly(c: char)
    ensures c in UppercaseChars <==> IsUpper(c)
  {
    if IsUpper(c) {
      assert UppercaseChars[c as int - 65] == c;
    }
  }

  lemma NumberCharsExactly(c: char)
    ensures c in NumberChars <==> IsDigit(c)
  {
    if IsDigit(c) {
      assert NumberChars[c as int - 48] == c;
    }
  }

  /** A value of `Math.random()`. */
  predicate Unit(r: real) {
    0.0 <= r < 1.0
  }

  lemma ScaledUnit(r: real, n: nat)
    requires Unit(r)
    ensures 0.0 <= r * (n as real)
    ensures n > 0 ==> r * (n as real) < n as real
  {
    if n > 0 {
      assert r * (n as real) < 1.0 * (n as real);
    }
  }

  /** `Math.floor(r * n)`: an index below `n`, or 0 when `n` is 0. */
  function Pick(r: real, n: nat): (k: nat)
    requires Unit(r)
    ensures n > 0 ==> k < n
    ensures n == 0 ==> k == 0
  {
    ScaledUnit(r, n);
    (r * (n as real)).Floor
  }

  /** The special characters of the generators of src/tasks/41145/1a.jsx and src/tasks/41145/1b.jsx. */
  const GeneratorSpecials: string := "!@#$%^&*()_+~`|}{[]:;?><,./-="

  /** `pool.charAt(Math.floor(Math.random() * pool.length))`: one character of a non-empty
    * pool; on the empty pool the index is 0 and `charAt` gives "". */
  function CharAt(pool: string, r: real): (s: string)
    requires Unit(r)
    ensures pool != [] ==> |s| == 1 && s[0] in pool
    ensures pool == [] ==> s == ""
  {
    if pool == [] then "" else [pool[Pick(r, |pool|)]]
  }

  /** The characters drawn by the generator loop, one random number per step. */
  function Drawn(pool: string, rs: seq<real>): (s: string)
    requires forall k :: 0 <= k < |rs| ==> Unit(rs[k])
    ensures pool != [] ==> |s| == |rs|
    ensures pool == [] ==> s == ""
    ensures forall k :: 0 <= k < |s| ==> s[k] in pool
  {
    if rs == [] then "" else Drawn(pool, rs[..|rs| - 1]) + CharAt(pool, rs[|rs| - 1])
  }

  /** `for (let i = 0; i < length; i++) newPassword += pool.charAt(...)`. */
  method DrawLoop(pool: string, length: int, rs: seq<real>) returns (pw: string)
    requires length <= |rs| && forall k :: 0 <= k < |rs| ==> Unit(rs[k])
    ensures pw == Drawn(pool, rs[..if length < 0 then 0 else length])
    ensures pool != [] ==> |pw| == (if length < 0 then 0 else length)
    ensures pool == [] ==> pw == ""
    ensures forall k :: 0 <= k < |pw| ==> pw[k] in pool
  {
    pw := "";
    var i := 0;
    while i < length
      invariant 0 <= i <= |rs| && (length >= 0 ==> i <= length) && (length < 0 ==> i == 0)
      invariant pw == Drawn(pool, rs[..i])
    {
      DrawnStep(pool, rs, i);
      pw := pw + CharAt(pool, rs[i]);
      i := i + 1;
    }
  }

  lemma DrawnStep(pool: string, rs: seq<real>, i: nat)
    requires i < |rs| && forall k :: 0 <= k < |rs| ==> Unit(rs[k])
    ensures Drawn(pool, rs[..i + 1]) == Drawn(pool, rs[..i]) + CharAt(pool, rs[i])
  {
    assert rs[..i + 1][..i] == rs[..i];
  }

  /** The labels shared by the three strength meters, weakest first. */
  datatype Level = VeryWeak | Weak | Moderate | Strong | VeryStrong

  function Label(l: Level): string {
    match l
    case VeryWeak => "Very Weak"
    case Weak => "Weak"
    case Moderate => "Moderate"
    case Strong => "Strong"
    case VeryStrong => "Very Strong"
  }

  function Rank(l: Level): nat {
    match l
    case VeryWeak => 0
    case Weak => 1
    case Moderate => 2
    case Strong => 3
    case VeryStrong => 4
  }

  /** `strengthLevels`, indexed by strength. */
  const Levels: seq<Level> := [VeryWeak, Weak, Moderate, Strong, VeryStrong]

  /** A criterion's contribution to a score. */
  function Count(b: bool): nat {
    if b then 1 else 0
  }

  /** A string with no upper-case letter is its own lower-case form. */
  lemma {:induction false} LowerOfNoUpper(s: string)
    requires forall k :: 0 <= k < |s| ==> !IsUpper(s[k])
    ensures Lower(s) == s
  {
    forall k | 0 <= k < |s|
      ensures Lower(s)[k] == s[k]
    {
      assert LowerChar(s[k]) == s[k];
    }
  }
}
