/** The password manager of src/tasks/41145/1a.jsx: a policy of a length and four
  * switches, a five-point score shown as a level and a bar, the criteria list, a
  * generator that also records a masked history entry, and a fixed list of common
  * passwords. Random numbers are parameters. */
module PasswordA {
  import opened Text
  import opened PasswordCommon

  /** `policy`: the length slider and the four class switches. */
  datatype Policy = Policy(length: int, uppercase: bool, lowercase: bool, numbers: bool, specialChars: bool)

  const DefaultPolicy := Policy(8, true, true, true, true)

  /** The slider's range. */
  predicate InRange(p: Policy) {
    4 <= p.length <= 32
  }

  /** `/[^A-Za-z0-9]/`: anything that is not an ASCII letter or digit. */
  predicate IsSymbol(c: char) {
    !IsAlnum(c)
  }

  // ---------------------------------------------------------------- strength

  /** The score of `evaluateStrength`: one point per criterion met. */
  function RawScore(pwd: string, p: Policy): (s: nat)
    ensures s <= 5
  {
    Count(|pwd| >= p.length) + Count(Has(pwd, IsLower) && p.lowercase) + Count(Has(pwd, IsUpper) && p.uppercase)
    + Count(Has(pwd, IsDigit) && p.numbers) + Count(Has(pwd, IsSymbol) && p.specialChars)
  }

  /** The `if`/`else if` chain of `evaluateStrength`. */
  function LevelOf(score: int): (r: Level)
    ensures r == VeryWeak <==> score == 0
    ensures r == VeryStrong <==> score >= 5
  {
    if score == 0 then VeryWeak
    else if score <= 2 then Weak
    else if score <= 3 then Moderate
    else if score == 4 then Strong
    else VeryStrong
  }

  /** The stored `strength`: the level and the bar value. */
  datatype Strength = Strength(level: Level, score: int)

  function Evaluate(pwd: string, p: Policy): (r: Strength)
    ensures r.score % 20 == 0 && 0 <= r.score <= 100
    ensures r.level == LevelOf(r.score / 20)
  {
    Strength(LevelOf(RawScore(pwd, p)), RawScore(pwd, p) * 20)
  }

  /** The level for each possible score, as a table. */
  const LevelTable: seq<Level> := [VeryWeak, Weak, Weak, Moderate, Strong, VeryStrong]

  /** The chain agrees with the table on every score from 0 to 5. */
  lemma LevelMatchesTable(score: int)
    requires 0 <= score <= 5
    ensures LevelOf(score) == LevelTable[score]
  {
  }

  /** More criteria never give a lower level. */
  lemma LevelMonotone(a: int, b: int)
    requires 0 <= a <= b
    ensures Rank(LevelOf(a)) <= Rank(LevelOf(b))
  {
  }

  /** The level is "Very Strong" exactly when all five criteria are met, which needs all
    * four switches on. */
  lemma VeryStrongIffAllMet(pwd: string, p: Policy)
    ensures Evaluate(pwd, p).level == VeryStrong <==>
      |pwd| >= p.length && p.lowercase && p.uppercase && p.numbers && p.specialChars &&
      Has(pwd, IsLower) && Has(pwd, IsUpper) && Has(pwd, IsDigit) && Has(pwd, IsSymbol)
  {
  }

  /** The "Suggest Stronger Password" button: shown only when the level is "Weak". */
  predicate ShowsSuggest(s: Strength) {
    s.level == Weak
  }

  /** The button appears exactly for one or two criteria met. */
  lemma SuggestIffOneOrTwo(pwd: string, p: Policy)
    ensures ShowsSuggest(Evaluate(pwd, p)) <==> 1 <= RawScore(pwd, p) <= 2
  {
  }

  // ---------------------------------------------------------------- criteria list

  /** `CriteriaList`: minimum length always, then upper-case, lower-case, numbers and
    * special characters, each ticked only when its switch is on. */
  function Criteria(pwd: string, p: Policy): (r: seq<bool>)
    ensures |r| == 5
    ensures r[0] <==> |pwd| >= p.length
    ensures r[1] <==> p.uppercase && Has(pwd, IsUpper)
    ensures r[2] <==> p.lowercase && Has(pwd, IsLower)
    ensures r[3] <==> p.numbers && Has(pwd, IsDigit)
    ensures r[4] <==> p.specialChars && Has(pwd, IsSymbol)
  {
    [|pwd| >= p.length, p.uppercase && Has(pwd, IsUpper), p.lowercase && Has(pwd, IsLower),
     p.numbers && Has(pwd, IsDigit), p.specialChars && Has(pwd, IsSymbol)]
  }

  function Ticks(r: seq<bool>): nat {
    if r == [] then 0 else Count(r[0]) + Ticks(r[1..])
  }

  /** The list and the meter agree: the number of ticks is the score. */
  lemma TicksAreScore(pwd: string, p: Policy)
    ensures Ticks(Criteria(pwd, p)) == RawScore(pwd, p)
  {
    var r := Criteria(pwd, p);
    assert Ticks(r[4..]) == Count(r[4]) by { assert r[4..][1..] == []; }
    assert Ticks(r[3..]) == Count(r[3]) + Ticks(r[4..]) by { assert r[3..][1..] == r[4..]; }
    assert Ticks(r[2..]) == Count(r[2]) + Ticks(r[3..]) by { assert r[2..][1..] == r[3..]; }
    assert Ticks(r[1..]) == Count(r[1]) + Ticks(r[2..]) by { assert r[1..][1..] == r[2..]; }
  }

  // ---------------------------------------------------------------- generation

  /** `pool`: lower-case, upper-case, digits, then special characters, each if switched on. */
  function Pool(p: Policy): (pool: string)
    ensures pool == [] <==> !p.lowercase && !p.uppercase && !p.numbers && !p.specialChars
  {
    (if p.lowercase then LowercaseChars else [])
    + (if p.uppercase then UppercaseChars else [])
    + (if p.numbers then NumberChars else [])
    + (if p.specialChars then GeneratorSpecials else [])
  }

  /** `generatePassword`'s new password; `rs` holds the loop's random numbers. */
  method GeneratePassword(p: Policy, rs: seq<real>) returns (pw: string)
    requires p.length <= |rs| && forall k :: 0 <= k < |rs| ==> Unit(rs[k])
    ensures Pool(p) != [] ==> |pw| == (if p.length < 0 then 0 else p.length)
    ensures Pool(p) == [] ==> pw == ""
    ensures forall k :: 0 <= k < |pw| ==> pw[k] in Pool(p)
  {
    ghost var lower := if p.lowercase then LowercaseChars else [];
    ghost var upper := if p.uppercase then UppercaseChars else [];
    ghost var digits := if p.numbers then NumberChars else [];
    var pool := "";
    if p.lowercase { pool := pool + LowercaseChars; }
    assert pool == lower;
    if p.uppercase { pool := pool + UppercaseChars; }
    assert pool == lower + upper;
    if p.numbers { pool := pool + NumberChars; }
    assert pool == lower + upper + digits;
    if p.specialChars { pool := pool + GeneratorSpecials; }
    assert pool == Pool(p);
    pw := DrawLoop(pool, p.length, rs);
  }

  /** The history entry: the first three characters (fewer if shorter), then "****". */
  function HistoryEntry(pw: string): (e: string)
    ensures |e| == (if |pw| < 3 then |pw| else 3) + 4
    ensures e[..|e| - 4] == pw[..|e| - 4] && e[|e| - 4..] == "****"
  {
    if |pw| < 3 then pw + "****" else pw[..3] + "****"
  }

  /** Two passwords that share their first three characters leave the same entry: the
    * entry never reveals more than three characters. */
  lemma EntryHidesTheRest(a: string, b: string)
    requires |a| >= 3 && |b| >= 3 && a[..3] == b[..3]
    ensures HistoryEntry(a) == HistoryEntry(b)
  {
  }

  // ---------------------------------------------------------------- common passwords

  const CommonPasswords: seq<string> := ["password", "123456", "qwerty"]

  /** `commonPasswords.includes(password)`: exact, case-sensitive membership. */
  predicate IsCommon(pwd: string): (b: bool)
    ensures b ==> !Has(pwd, IsUpper)
  {
    NoUpperIn(CommonPasswords[0]);
    NoUpperIn(CommonPasswords[1]);
    NoUpperIn(CommonPasswords[2]);
    pwd in CommonPasswords
  }

  lemma NoUpperIn(pwd: string)
    requires forall k :: 0 <= k < |pwd| ==> pwd[k] in "abcdefghijklmnopqrstuvwxyz0123456789"
    ensures !Has(pwd, IsUpper)
  {
  }

  /** Case matters: "password" is flagged, "Password" is not. */
  lemma CommonIsCaseSensitive()
    ensures IsCommon("password") && !IsCommon("Password")
  {
    assert "Password"[0] != "password"[0];
    assert "Password" != "123456" && "Password" != "qwerty";
  }

  // ---------------------------------------------------------------- the app

  class App {
    var password: string
    var strength: Strength
    var policy: Policy
    var history: seq<string>

    /** The effect keeps `strength` in step with the password and the policy. */
    ghost predicate Valid()
      reads this
    {
      InRange(policy) && strength == Evaluate(password, policy)
    }

    constructor()
      ensures Valid()
      ensures password == "" && policy == DefaultPolicy && history == [] && strength == Strength(VeryWeak, 0)
    {
      password := "";
      policy := DefaultPolicy;
      history := [];
      strength := Strength(VeryWeak, 0);
    }

    /** Typing in the input, followed by the effect. */
    method SetPassword(pwd: string)
      requires Valid()
      modifies this`password, this`strength
      ensures Valid()
      ensures password == pwd && strength == Evaluate(pwd, policy)
    {
      password := pwd;
      strength := Evaluate(password, policy);
    }

    /** The slider or a switch, followed by the effect. */
    method SetPolicy(p: Policy)
      requires Valid() && InRange(p)
      modifies this`policy, this`strength
      ensures Valid()
      ensures policy == p && strength == Evaluate(password, p)
    {
      policy := p;
      strength := Evaluate(password, policy);
    }

    /** `generatePassword` (also behind the "Suggest Stronger Password" button): a fresh
      * password of the policy's length and its masked entry at the end of the history. */
    method Generate(rs: seq<real>)
      requires Valid() && policy.length <= |rs| && forall k :: 0 <= k < |rs| ==> Unit(rs[k])
      modifies this`password, this`strength, this`history
      ensures Valid()
      ensures Pool(policy) != [] ==> |password| == policy.length
      ensures forall k :: 0 <= k < |password| ==> password[k] in Pool(policy)
      ensures history == old(history) + [HistoryEntry(password)]
    {
      var pw := GeneratePassword(policy, rs);
      password := pw;
      history := history + [HistoryEntry(pw)];
      strength := Evaluate(password, policy);
    }
  }
}
