/** The password strength checker of src/tasks/41145/1ideal.jsx: a policy
  * (minimum length and four character classes), a strength from 0 to 4, the
  * list of required criteria, a generator, the "suggest stronger" extension,
  * a five-entry history and the masked preview. Random numbers are parameters. */
module PasswordIdeal {
  import opened Text
  import opened Seqs
  import opened PasswordCommon

  /** The class `[!@#$%^&*(),.?":{}|<>]` and the generator's special characters. */
  const SpecialChars: string := "!@#$%^&*(),.?\":{}|<>"

  predicate IsSpecial(c: char) {
    c in SpecialChars
  }

  datatype Policy = Policy(minLength: nat, requireLowercase: bool, requireUppercase: bool,
                           requireNumbers: bool, requireSpecial: bool)

  const DefaultPolicy := Policy(8, true, true, true, true)

  /** The slider keeps the minimum length between 6 and 20. */
  predicate InRange(p: Policy) {
    6 <= p.minLength <= 20
  }

  // ---------------------------------------------------------------- strength

  /** How many of the six strength criteria `pwd` meets. */
  function Score(pwd: string, p: Policy): (s: nat)
    ensures s <= 6
    ensures |pwd| < p.minLength ==> s <= 4
  {
    Count(|pwd| >= p.minLength) + Count(|pwd| >= p.minLength + 4)
    + Count(p.requireLowercase && Has(pwd, IsLower)) + Count(p.requireUppercase && Has(pwd, IsUpper))
    + Count(p.requireNumbers && Has(pwd, IsDigit)) + Count(p.requireSpecial && Has(pwd, IsSpecial))
  }

  /** `Math.min(Math.floor(score / 1.5), 4)`; floor(score / 1.5) is (2 * score) / 3. */
  function Strength(pwd: string, p: Policy): (s: nat)
    ensures s <= 4
  {
    Min(2 * Score(pwd, p) / 3, 4)
  }

  function Min(a: nat, b: nat): nat {
    if a <= b then a else b
  }

  /** `calculateStrength`, one `score++` per criterion met. */
  method CalculateStrength(pwd: string, p: Policy) returns (strength: nat)
    ensures strength == Strength(pwd, p)
    ensures strength < |Levels|
  {
    var score: nat := 0;
    if |pwd| >= p.minLength { score := score + 1; }
    assert score == Count(|pwd| >= p.minLength);
    if |pwd| >= p.minLength + 4 { score := score + 1; }
    ghost var s2 := score;
    if p.requireLowercase && Has(pwd, IsLower) { score := score + 1; }
    assert score == s2 + Count(p.requireLowercase && Has(pwd, IsLower));
    ghost var s3 := score;
    if p.requireUppercase && Has(pwd, IsUpper) { score := score + 1; }
    assert score == s3 + Count(p.requireUppercase && Has(pwd, IsUpper));
    ghost var s4 := score;
    if p.requireNumbers && Has(pwd, IsDigit) { score := score + 1; }
    assert score == s4 + Count(p.requireNumbers && Has(pwd, IsDigit));
    ghost var s5 := score;
    if p.requireSpecial && Has(pwd, IsSpecial) { score := score + 1; }
    assert score == s5 + Count(p.requireSpecial && Has(pwd, IsSpecial));
    assert score == Score(pwd, p);
    strength := Min(2 * score / 3, 4);
  }

  /** Six criteria at most, so the cap at 4 never bites: the strength is (2 * score) / 3,
    * a valid index into the five levels, and the bar `(strength + 1) * 20` lies in 20..100. */
  lemma StrengthIsAnIndex(pwd: string, p: Policy)
    ensures Strength(pwd, p) == 2 * Score(pwd, p) / 3
    ensures 0 <= Strength(pwd, p) < |Levels|
    ensures 20 <= (Strength(pwd, p) + 1) * 20 <= 100
  {
    assert Score(pwd, p) <= 6;
  }

  /** A long password with every class, under a policy requiring them all, is "Very Strong";
    * the empty password under any positive minimum is "Very Weak". */
  lemma StrengthExtremes(pwd: string, p: Policy)
    ensures (p.requireLowercase && p.requireUppercase && p.requireNumbers && p.requireSpecial &&
             |pwd| >= p.minLength + 4 && Has(pwd, IsLower) && Has(pwd, IsUpper) &&
             Has(pwd, IsDigit) && Has(pwd, IsSpecial)) ==> Levels[Strength(pwd, p)] == VeryStrong
    ensures pwd == "" && p.minLength > 0 ==> Levels[Strength(pwd, p)] == VeryWeak
  {
    if pwd == "" {
      assert !Has(pwd, IsLower) && !Has(pwd, IsUpper) && !Has(pwd, IsDigit) && !Has(pwd, IsSpecial);
    }
  }

  // ---------------------------------------------------------------- criteria

  datatype Criterion = MinLength(n: nat) | Lowercase | Uppercase | Numbers | Special

  /** `criterion.check(password)`. */
  predicate Met(c: Criterion, pwd: string) {
    match c
    case MinLength(n) => |pwd| >= n
    case Lowercase => Has(pwd, IsLower)
    case Uppercase => Has(pwd, IsUpper)
    case Numbers => Has(pwd, IsDigit)
    case Special => Has(pwd, IsSpecial)
  }

  /** `activeCriteria`: the minimum length always, then each class the policy requires. */
  function ActiveCriteria(p: Policy): (r: seq<Criterion>)
    ensures |r| >= 1 && r[0] == MinLength(p.minLength)
    ensures forall k :: 1 <= k < |r| ==> !r[k].MinLength?
    ensures Lowercase in r <==> p.requireLowercase
    ensures Uppercase in r <==> p.requireUppercase
    ensures Numbers in r <==> p.requireNumbers
    ensures Special in r <==> p.requireSpecial
  {
    [MinLength(p.minLength)]
    + (if p.requireLowercase then [Lowercase] else [])
    + (if p.requireUppercase then [Uppercase] else [])
    + (if p.requireNumbers then [Numbers] else [])
    + (if p.requireSpecial then [Special] else [])
  }

  /** Long enough, and holding every class the policy requires. */
  predicate Compliant(pwd: string, p: Policy) {
    |pwd| >= p.minLength
    && (p.requireLowercase ==> Has(pwd, IsLower)) && (p.requireUppercase ==> Has(pwd, IsUpper))
    && (p.requireNumbers ==> Has(pwd, IsDigit)) && (p.requireSpecial ==> Has(pwd, IsSpecial))
  }

  /** Every listed criterion shows a tick exactly when the password is compliant. */
  lemma AllTicksIffCompliant(pwd: string, p: Policy)
    ensures (forall k :: 0 <= k < |ActiveCriteria(p)| ==> Met(ActiveCriteria(p)[k], pwd)) <==> Compliant(pwd, p)
  {
    TicksIffCompliant(ActiveCriteria(p), pwd, p);
  }

  /** The same for any list shaped like `activeCriteria`: the minimum length first, then
    * exactly the required classes. */
  lemma TicksIffCompliant(r: seq<Criterion>, pwd: string, p: Policy)
    requires |r| >= 1 && r[0] == MinLength(p.minLength)
    requires forall k :: 1 <= k < |r| ==> !r[k].MinLength?
    requires (Lowercase in r <==> p.requireLowercase) && (Uppercase in r <==> p.requireUppercase)
    requires (Numbers in r <==> p.requireNumbers) && (Special in r <==> p.requireSpecial)
    ensures (forall k :: 0 <= k < |r| ==> Met(r[k], pwd)) <==> Compliant(pwd, p)
  {
    if forall k :: 0 <= k < |r| ==> Met(r[k], pwd) {
      assert Met(r[0], pwd);
      forall c | c in r
        ensures Met(c, pwd)
      {
        var k :| 0 <= k < |r| && r[k] == c;
      }
    }
    if Compliant(pwd, p) {
      forall k | 0 <= k < |r|
        ensures Met(r[k], pwd)
      {
        if k > 0 {
          assert r[k] in r;
        }
      }
    }
  }

  // ---------------------------------------------------------------- generation

  /** `charset`: the enabled classes, lower-case first. */
  function Charset(p: Policy): string {
    (if p.requireLowercase then LowercaseChars else [])
    + (if p.requireUppercase then UppercaseChars else [])
    + (if p.requireNumbers then NumberChars else [])
    + (if p.requireSpecial then SpecialChars else [])
  }

  lemma CharsetExactly(p: Policy, c: char)
    ensures c in Charset(p) <==> (p.requireLowercase && IsLower(c)) || (p.requireUppercase && IsUpper(c))
                                 || (p.requireNumbers && IsDigit(c)) || (p.requireSpecial && IsSpecial(c))
  {
    LowercaseCharsExactly(c);
    UppercaseCharsExactly(c);
    NumberCharsExactly(c);
  }

  /** The random numbers one call of `generatePassword` consumes. */
  datatype Draws = Draws(chars: seq<real>, lower: real, upper: real, numberPos: real, number: real,
                         specialPos: real, special: real)

  predicate UnitDraws(d: Draws) {
    (forall k :: 0 <= k < |d.chars| ==> Unit(d.chars[k]))
    && Unit(d.lower) && Unit(d.upper) && Unit(d.numberPos) && Unit(d.number)
    && Unit(d.specialPos) && Unit(d.special)
  }

  /** `charset[Math.floor(Math.random() * charset.length)]`, appended with `+=`; on an
    * empty charset the lookup is undefined, which `+=` appends as the text "undefined". */
  function Draw(charset: string, r: real): (s: string)
    requires Unit(r)
    ensures charset != [] ==> |s| == 1 && s[0] in charset
    ensures charset == [] ==> s == "undefined"
  {
    if charset == [] then "undefined" else [charset[Pick(r, |charset|)]]
  }

  /** The first loop of `generatePassword`, one draw per character. */
  function Fill(charset: string, rs: seq<real>): (s: string)
    requires forall k :: 0 <= k < |rs| ==> Unit(rs[k])
    ensures charset != [] ==> |s| == |rs| && forall k :: 0 <= k < |s| ==> s[k] in charset
    ensures charset == [] ==> |s| == 9 * |rs|
  {
    if rs == [] then "" else Fill(charset, rs[..|rs| - 1]) + Draw(charset, rs[|rs| - 1])
  }

  /** `s.slice(0, pos) + ch + s.slice(pos + 1)` with `pos` inside `s`. */
  function Overwrite(s: string, pos: nat, ch: char): (r: string)
    requires pos < |s|
    ensures r == s[pos := ch]
  {
    s[..pos] + [ch] + s[pos + 1..]
  }

  /** A missing lower-case letter replaces the first character. */
  function FixLower(pw: string, p: Policy, d: Draws): (r: string)
    requires |pw| >= 2 && UnitDraws(d)
    ensures |r| == |pw|
  {
    if p.requireLowercase && !Has(pw, IsLower) then [LowercaseChars[Pick(d.lower, 26)]] + pw[1..] else pw
  }

  /** A missing upper-case letter replaces the last character. */
  function FixUpper(pw: string, p: Policy, d: Draws): (r: string)
    requires |pw| >= 2 && UnitDraws(d)
    ensures |r| == |pw|
  {
    if p.requireUppercase && !Has(pw, IsUpper) then pw[..|pw| - 1] + [UppercaseChars[Pick(d.upper, 26)]] else pw
  }

  /** A missing digit replaces the character at a random position from 1 to length - 1. */
  function FixNumber(pw: string, p: Policy, d: Draws): (r: string)
    requires |pw| >= 2 && UnitDraws(d)
    ensures |r| == |pw|
  {
    if p.requireNumbers && !Has(pw, IsDigit)
    then Overwrite(pw, Pick(d.numberPos, |pw| - 1) + 1, NumberChars[Pick(d.number, 10)])
    else pw
  }

  /** A missing special character replaces the character at a random position from 1 to
    * length - 2 (position 1 when the length is 2). */
  function FixSpecial(pw: string, p: Policy, d: Draws): (r: string)
    requires |pw| >= 2 && UnitDraws(d)
    ensures |r| == |pw|
  {
    if p.requireSpecial && !Has(pw, IsSpecial)
    then Overwrite(pw, Pick(d.specialPos, |pw| - 2) + 1, SpecialChars[Pick(d.special, |SpecialChars|)])
    else pw
  }

  /** The four fix-ups of `generatePassword`, in source order. */
  function FixUps(pw: string, p: Policy, d: Draws): (r: string)
    requires |pw| >= 2 && UnitDraws(d)
    ensures |r| == |pw|
  {
    FixSpecial(FixNumber(FixUpper(FixLower(pw, p, d), p, d), p, d), p, d)
  }

  /** What `generatePassword(policy)` returns for the draws `d`. */
  function Generated(p: Policy, d: Draws): string
    requires p.minLength >= 2 && |d.chars| == p.minLength && UnitDraws(d)
  {
    FixUps(Fill(Charset(p), d.chars), p, d)
  }

  /** The first loop: `password += charset[...]`, `minLength` times. */
  method FillPassword(charset: string, rs: seq<real>) returns (password: string)
    requires forall k :: 0 <= k < |rs| ==> Unit(rs[k])
    ensures password == Fill(charset, rs)
  {
    password := "";
    var i := 0;
    while i < |rs|
      invariant 0 <= i <= |rs|
      invariant password == Fill(charset, rs[..i])
    {
      assert rs[..i + 1][..i] == rs[..i];
      password := password + Draw(charset, rs[i]);
      i := i + 1;
    }
    assert rs[..i] == rs;
  }

  /** `generatePassword`, as written. */
  method GeneratePassword(policy: Policy, d: Draws) returns (password: string)
    requires policy.minLength >= 2 && |d.chars| == policy.minLength && UnitDraws(d)
    ensures password == Generated(policy, d)
  {
    var charset := "";
    if policy.requireLowercase { charset := charset + LowercaseChars; }
    assert charset == (if policy.requireLowercase then LowercaseChars else []);
    if policy.requireUppercase { charset := charset + UppercaseChars; }
    assert charset == (if policy.requireLowercase then LowercaseChars else [])
                      + (if policy.requireUppercase then UppercaseChars else []);
    ghost var twoClasses := charset;
    if policy.requireNumbers { charset := charset + NumberChars; }
    assert charset == twoClasses + (if policy.requireNumbers then NumberChars else []);
    ghost var threeClasses := charset;
    if policy.requireSpecial { charset := charset + SpecialChars; }
    assert charset == threeClasses + (if policy.requireSpecial then SpecialChars else []);
    password := FillPassword(charset, d.chars);
    password := ApplyFixUps(password, policy, d);
  }

  /** The four `if` statements after the loop of `generatePassword`. */
  method ApplyFixUps(filled: string, policy: Policy, d: Draws) returns (password: string)
    requires |filled| >= 2 && UnitDraws(d)
    ensures password == FixUps(filled, policy, d)
  {
    password := EnsureLower(filled, policy, d);
    password := EnsureUpper(password, policy, d);
    password := EnsureNumber(password, policy, d);
    password := EnsureSpecial(password, policy, d);
  }

  /** The first `if`: no lower-case letter, so the first character is replaced. */
  method EnsureLower(pw: string, policy: Policy, d: Draws) returns (password: string)
    requires |pw| >= 2 && UnitDraws(d)
    ensures password == FixLower(pw, policy, d)
  {
    password := pw;
    if policy.requireLowercase && !Has(password, IsLower) {
      password := [LowercaseChars[Pick(d.lower, 26)]] + password[1..];
    }
  }

  /** The second `if`: no upper-case letter, so the last character is replaced. */
  method EnsureUpper(pw: string, policy: Policy, d: Draws) returns (password: string)
    requires |pw| >= 2 && UnitDraws(d)
    ensures password == FixUpper(pw, policy, d)
  {
    password := pw;
    if policy.requireUppercase && !Has(password, IsUpper) {
      password := password[..|password| - 1] + [UppercaseChars[Pick(d.upper, 26)]];
    }
  }

  /** The third `if`: no digit, so a random character after the first is replaced. */
  method EnsureNumber(pw: string, policy: Policy, d: Draws) returns (password: string)
    requires |pw| >= 2 && UnitDraws(d)
    ensures password == FixNumber(pw, policy, d)
  {
    password := pw;
    if policy.requireNumbers && !Has(password, IsDigit) {
      var pos := Pick(d.numberPos, |password| - 1) + 1;
      password := Overwrite(password, pos, NumberChars[Pick(d.number, 10)]);
    }
  }

  /** The fourth `if`: no special character, so a random inner character is replaced. */
  method EnsureSpecial(pw: string, policy: Policy, d: Draws) returns (password: string)
    requires |pw| >= 2 && UnitDraws(d)
    ensures password == FixSpecial(pw, policy, d)
  {
    password := pw;
    if policy.requireSpecial && !Has(password, IsSpecial) {
      var pos := Pick(d.specialPos, |password| - 2) + 1;
      password := Overwrite(password, pos, SpecialChars[Pick(d.special, |SpecialChars|)]);
    }
  }

  /** With a class enabled the password has exactly `minLength` characters, every one from the
    * enabled classes; with none it is "undefined" repeated `minLength` times. A required special
    * character, the last fix-up, is always present. */
  lemma GeneratedShape(p: Policy, d: Draws)
    requires p.minLength >= 2 && |d.chars| == p.minLength && UnitDraws(d)
    ensures Charset(p) != [] ==> |Generated(p, d)| == p.minLength
    ensures Charset(p) != [] ==> forall k :: 0 <= k < |Generated(p, d)| ==> Generated(p, d)[k] in Charset(p)
    ensures Charset(p) == [] ==> |Generated(p, d)| == 9 * p.minLength
    ensures p.requireSpecial ==> Has(Generated(p, d), IsSpecial)
  {
    var pw := Fill(Charset(p), d.chars);
    var a := FixLower(pw, p, d);
    var b := FixUpper(a, p, d);
    var c := FixNumber(b, p, d);
    if Charset(p) != [] {
      FixLowerInCharset(pw, p, d);
      FixUpperInCharset(a, p, d);
      FixNumberInCharset(b, p, d);
      FixSpecialInCharset(c, p, d);
    }
    FixSpecialHasSpecial(c, p, d);
  }

  predicate AllIn(s: string, cs: string) {
    forall k :: 0 <= k < |s| ==> s[k] in cs
  }

  lemma FixLowerInCharset(pw: string, p: Policy, d: Draws)
    requires |pw| >= 2 && UnitDraws(d) && AllIn(pw, Charset(p))
    ensures AllIn(FixLower(pw, p, d), Charset(p))
  {
    if p.requireLowercase && !Has(pw, IsLower) {
      var ch := LowercaseChars[Pick(d.lower, 26)];
      ClassCharInCharset(p, ch);
      ReplaceAllIn(pw, 0, ch, Charset(p));
      assert FixLower(pw, p, d) == pw[0 := ch];
    }
  }

  lemma FixUpperInCharset(pw: string, p: Policy, d: Draws)
    requires |pw| >= 2 && UnitDraws(d) && AllIn(pw, Charset(p))
    ensures AllIn(FixUpper(pw, p, d), Charset(p))
  {
    if p.requireUppercase && !Has(pw, IsUpper) {
      var ch := UppercaseChars[Pick(d.upper, 26)];
      ClassCharInCharset(p, ch);
      ReplaceAllIn(pw, |pw| - 1, ch, Charset(p));
      assert FixUpper(pw, p, d) == pw[|pw| - 1 := ch];
    }
  }

  lemma FixNumberInCharset(pw: string, p: Policy, d: Draws)
    requires |pw| >= 2 && UnitDraws(d) && AllIn(pw, Charset(p))
    ensures AllIn(FixNumber(pw, p, d), Charset(p))
  {
    if p.requireNumbers && !Has(pw, IsDigit) {
      var ch := NumberChars[Pick(d.number, 10)];
      ClassCharInCharset(p, ch);
      ReplaceAllIn(pw, Pick(d.numberPos, |pw| - 1) + 1, ch, Charset(p));
    }
  }

  lemma FixSpecialInCharset(pw: string, p: Policy, d: Draws)
    requires |pw| >= 2 && UnitDraws(d) && AllIn(pw, Charset(p))
    ensures AllIn(FixSpecial(pw, p, d), Charset(p))
  {
    if p.requireSpecial && !Has(pw, IsSpecial) {
      var ch := SpecialChars[Pick(d.special, |SpecialChars|)];
      ClassCharInCharset(p, ch);
      ReplaceAllIn(pw, Pick(d.specialPos, |pw| - 2) + 1, ch, Charset(p));
    }
  }

  /** A character of a required class's generator set is in the charset. */
  lemma ClassCharInCharset(p: Policy, ch: char)
    requires (p.requireLowercase && ch in LowercaseChars) || (p.requireUppercase && ch in UppercaseChars)
          || (p.requireNumbers && ch in NumberChars) || (p.requireSpecial && ch in SpecialChars)
    ensures ch in Charset(p)
  {
  }

  lemma ReplaceAllIn(pw: string, pos: nat, ch: char, cs: string)
    requires pos < |pw| && AllIn(pw, cs) && ch in cs
    ensures AllIn(pw[pos := ch], cs)
  {
  }

  lemma FixSpecialHasSpecial(pw: string, p: Policy, d: Draws)
    requires |pw| >= 2 && UnitDraws(d)
    ensures p.requireSpecial ==> Has(FixSpecial(pw, p, d), IsSpecial)
  {
    if p.requireSpecial && !Has(pw, IsSpecial) {
      var pos := Pick(d.specialPos, |pw| - 2) + 1;
      assert IsSpecial(FixSpecial(pw, p, d)[pos]);
    }
  }

  /** The draws of the example below: seven picks of '1' from the 82-character charset, then 'a'. */
  const MissDraws := Draws([0.65, 0.65, 0.65, 0.65, 0.65, 0.65, 0.65, 0.0], 0.0, 0.0, 0.0, 0.0, 0.0, 0.0)

  lemma DefaultDraws()
    ensures Draw(Charset(DefaultPolicy), 0.65) == "1" && Draw(Charset(DefaultPolicy), 0.0) == "a"
  {
    var cs := Charset(DefaultPolicy);
    assert |cs| == 82 && cs[53] == '1' && cs[0] == 'a';
    assert Pick(0.65, 82) == 53;
  }

  lemma MissDrawsFill()
    ensures UnitDraws(MissDraws) && Fill(Charset(DefaultPolicy), MissDraws.chars) == "1111111a"
  {
    DefaultDraws();
    MissFill(Charset(DefaultPolicy));
  }

  lemma MissFill(cs: string)
    requires Draw(cs, 0.65) == "1" && Draw(cs, 0.0) == "a"
    ensures UnitDraws(MissDraws) && Fill(cs, MissDraws.chars) == "1111111a"
  {
    var rs := MissDraws.chars[..7];
    FillRepeat(cs, 0.65, '1', rs);
    assert Fill(cs, rs) == "1111111";
  }

  /** Draws that each give `ch` fill one copy of `ch` per draw. */
  lemma {:induction false} FillRepeat(cs: string, r: real, ch: char, rs: seq<real>)
    requires Unit(r) && Draw(cs, r) == [ch]
    requires forall k :: 0 <= k < |rs| ==> rs[k] == r
    ensures |Fill(cs, rs)| == |rs|
    ensures forall k :: 0 <= k < |rs| ==> Fill(cs, rs)[k] == ch
  {
    if rs != [] {
      var init := rs[..|rs| - 1];
      FillRepeat(cs, r, ch, init);
      assert Fill(cs, rs) == Fill(cs, init) + [ch];
    }
  }

  lemma MissDrawsLowerUpper()
    ensures FixUpper(FixLower("1111111a", DefaultPolicy, MissDraws), DefaultPolicy, MissDraws) == "1111111A"
  {
    var pw: string := "1111111a";
    assert IsLower(pw[7]);
    assert FixLower(pw, DefaultPolicy, MissDraws) == pw;
    assert !Has(pw, IsUpper) by {
      forall k | 0 <= k < |pw| ensures !IsUpper(pw[k]) { }
    }
    assert Pick(0.0, 26) == 0;
  }

  lemma MissDrawsNumberSpecial()
    ensures FixSpecial(FixNumber("1111111A", DefaultPolicy, MissDraws), DefaultPolicy, MissDraws) == "1!11111A"
  {
    var b: string := "1111111A";
    assert IsDigit(b[0]);
    assert FixNumber(b, DefaultPolicy, MissDraws) == b;
    MissDrawsSpecial(b);
  }

  lemma MissDrawsSpecial(b: string)
    requires b == "1111111A"
    ensures FixSpecial(b, DefaultPolicy, MissDraws) == "1!11111A"
  {
    assert !Has(b, IsSpecial) by {
      forall k | 0 <= k < |b| ensures !IsSpecial(b[k]) {
        AlphanumericNotSpecial(b[k]);
      }
    }
    assert Pick(0.0, 6) == 0 && Pick(0.0, 20) == 0;
    assert FixSpecial(b, DefaultPolicy, MissDraws) == b[1 := '!'];
  }

  lemma AlphanumericNotSpecial(c: char)
    requires IsDigit(c) || IsUpper(c) || IsLower(c)
    ensures !IsSpecial(c)
  {
    forall k | 0 <= k < |SpecialChars| ensures SpecialChars[k] != c { }
  }

  lemma MissDrawsFixUps()
    ensures FixUps("1111111a", DefaultPolicy, MissDraws) == "1!11111A"
  {
    MissDrawsLowerUpper();
    MissDrawsNumberSpecial();
  }

  /** Under the default policy, the draws that fill "1111111a" make the upper-case fix-up
    * overwrite the only lower-case letter: the result "1!11111A" fails the policy. */
  lemma GeneratedCanMissLowercase()
    ensures UnitDraws(MissDraws) && |MissDraws.chars| == DefaultPolicy.minLength
    ensures Generated(DefaultPolicy, MissDraws) == "1!11111A"
    ensures !Compliant(Generated(DefaultPolicy, MissDraws), DefaultPolicy)
  {
    MissDrawsFill();
    MissDrawsFixUps();
    NoLowercaseIn("1!11111A");
  }

  lemma NoLowercaseIn(r: string)
    requires r == "1!11111A"
    ensures !Has(r, IsLower)
  {
    forall k | 0 <= k < |r| ensures !IsLower(r[k]) { }
  }

  /** The evident intent of the fix-ups: put one character of each required class in its own
    * slot (0, 1, 2, 3 in class order), so that no fix-up undoes another. */
  method GenerateCompliantPassword(policy: Policy, d: Draws) returns (password: string)
    requires policy.minLength >= 4 && |d.chars| == policy.minLength && UnitDraws(d)
    ensures password == GeneratedCompliant(policy, d)
    ensures Compliant(password, policy)
    ensures Charset(policy) != [] ==> |password| == policy.minLength
    ensures Charset(policy) != [] ==> forall k :: 0 <= k < |password| ==> password[k] in Charset(policy)
  {
    var filled := FillPassword(Charset(policy), d.chars);
    password := Placed(policy, filled, d);
    ClassSlots(policy, filled, d);
  }

  /** What the compliant generator returns for the draws `d`: the filled password with one
    * character of each required class in its own slot. */
  function GeneratedCompliant(p: Policy, d: Draws): string
    requires p.minLength >= 4 && |d.chars| == p.minLength && UnitDraws(d)
  {
    Placed(p, Fill(Charset(p), d.chars), d)
  }

  /** The slots the compliant generator writes, one per required class in class order. */
  lemma ClassSlots(p: Policy, filled: string, d: Draws)
    requires UnitDraws(d) && |filled| >= p.minLength >= 4
    requires Charset(p) != [] ==> |filled| == p.minLength && forall k :: 0 <= k < |filled| ==> filled[k] in Charset(p)
    ensures Compliant(Placed(p, filled, d), p)
    ensures |Placed(p, filled, d)| == |filled|
    ensures Charset(p) != [] ==> forall k :: 0 <= k < |filled| ==> Placed(p, filled, d)[k] in Charset(p)
  {
    ClassSlotsCompliant(p, filled, d);
    if Charset(p) != [] {
      ClassSlotsInCharset(p, filled, d);
    }
  }

  lemma ClassSlotsCompliant(p: Policy, filled: string, d: Draws)
    requires UnitDraws(d) && |filled| >= p.minLength >= 4
    ensures Compliant(Placed(p, filled, d), p)
  {
    var lc, uc, nc, sc := LowercaseChars[Pick(d.lower, 26)], UppercaseChars[Pick(d.upper, 26)],
      NumberChars[Pick(d.number, 10)], SpecialChars[Pick(d.special, |SpecialChars|)];
    var u := Count(p.requireLowercase);
    var n := u + Count(p.requireUppercase);
    var sp := n + Count(p.requireNumbers);
    var s1 := Place(filled, 0, p.requireLowercase, lc);
    var s2 := Place(s1, u, p.requireUppercase, uc);
    var s3 := Place(s2, n, p.requireNumbers, nc);
    var s4 := Place(s3, sp, p.requireSpecial, sc);
    assert s4 == Placed(p, filled, d);
    if p.requireLowercase {
      LowercaseCharsExactly(lc);
      assert s4[0] == s3[0] == s2[0] == s1[0] == lc;
    }
    if p.requireUppercase {
      UppercaseCharsExactly(uc);
      assert s4[u] == s3[u] == s2[u] == uc;
    }
    if p.requireNumbers {
      NumberCharsExactly(nc);
      assert s4[n] == s3[n] == nc;
    }
    if p.requireSpecial {
      assert s4[sp] == sc && IsSpecial(sc);
    }
  }

  lemma ClassSlotsInCharset(p: Policy, filled: string, d: Draws)
    requires UnitDraws(d) && |filled| >= 4 && AllIn(filled, Charset(p))
    ensures AllIn(Placed(p, filled, d), Charset(p))
  {
    var lc, uc, nc, sc := LowercaseChars[Pick(d.lower, 26)], UppercaseChars[Pick(d.upper, 26)],
      NumberChars[Pick(d.number, 10)], SpecialChars[Pick(d.special, |SpecialChars|)];
    var u := Count(p.requireLowercase);
    var n := u + Count(p.requireUppercase);
    var sp := n + Count(p.requireNumbers);
    if p.requireLowercase { ClassCharInCharset(p, lc); }
    if p.requireUppercase { ClassCharInCharset(p, uc); }
    if p.requireNumbers { ClassCharInCharset(p, nc); }
    if p.requireSpecial { ClassCharInCharset(p, sc); }
    PlaceAllIn(filled, 0, p.requireLowercase, lc, Charset(p));
    var s1 := Place(filled, 0, p.requireLowercase, lc);
    PlaceAllIn(s1, u, p.requireUppercase, uc, Charset(p));
    var s2 := Place(s1, u, p.requireUppercase, uc);
    PlaceAllIn(s2, n, p.requireNumbers, nc, Charset(p));
    var s3 := Place(s2, n, p.requireNumbers, nc);
    PlaceAllIn(s3, sp, p.requireSpecial, sc, Charset(p));
  }

  lemma PlaceAllIn(pw: string, slot: nat, on: bool, ch: char, cs: string)
    requires slot < |pw| && AllIn(pw, cs) && (on ==> ch in cs)
    ensures AllIn(Place(pw, slot, on, ch), cs)
  {
  }

  /** Write `ch` at `slot` when `on`, and move to the next slot. */
  function Place(pw: string, slot: nat, on: bool, ch: char): (r: string)
    requires slot < |pw|
    ensures |r| == |pw|
  {
    if on then pw[slot := ch] else pw
  }

  /** The compliant fix-ups: a drawn character of each required class written to the next
    * free slot from 0, in class order; a class that is not required takes no slot. */
  function Placed(p: Policy, filled: string, d: Draws): string
    requires UnitDraws(d) && |filled| >= 4
  {
    Place(Place(Place(Place(filled, 0, p.requireLowercase, LowercaseChars[Pick(d.lower, 26)]),
      Count(p.requireLowercase), p.requireUppercase, UppercaseChars[Pick(d.upper, 26)]),
      Count(p.requireLowercase) + Count(p.requireUppercase), p.requireNumbers, NumberChars[Pick(d.number, 10)]),
      Count(p.requireLowercase) + Count(p.requireUppercase) + Count(p.requireNumbers), p.requireSpecial,
      SpecialChars[Pick(d.special, |SpecialChars|)])
  }

  // ---------------------------------------------------------------- suggestion

  /** `suggestStrongerPassword`: append "a", "A", "1", "!" for each missing required class, then
    * the first character of a fresh generated password (`fill[i]`) until `minLength` is reached. */
  method SuggestStrongerPassword(current: string, policy: Policy, fill: seq<char>) returns (r: string)
    requires |fill| >= policy.minLength
    ensures r == Suggested(current, policy, fill)
    ensures |r| >= |current| && r[..|current|] == current
    ensures Compliant(r, policy)
    ensures |r| <= |current| + 4 || |r| == policy.minLength
    ensures forall k :: |current| <= k < |r| ==> r[k] in "aA1!" || r[k] in fill
  {
    var base := AppendMissing(current, policy);
    r := PadWithFill(base, policy.minLength, fill);
    assert r[..|current|] == current by {
      assert r[..|current|] == r[..|base|][..|current|];
    }
    forall k | |current| <= k < |r| ensures r[k] in "aA1!" || r[k] in fill {
      if k < |base| {
        assert r[k] == base[k];
      }
    }
    if policy.requireLowercase { HasExtends(base, r, IsLower); }
    if policy.requireUppercase { HasExtends(base, r, IsUpper); }
    if policy.requireNumbers { HasExtends(base, r, IsDigit); }
    if policy.requireSpecial { HasExtends(base, r, IsSpecial); }
  }

  /** What `suggestStrongerPassword` returns when the fresh passwords start with `fill`. */
  function Suggested(current: string, p: Policy, fill: seq<char>): string
    requires |fill| >= p.minLength
  {
    Padded(Appended(current, p), p.minLength, fill)
  }

  /** `base` followed by the first `minLength - |base|` characters of `fill`, if any. */
  function Padded(base: string, minLength: int, fill: seq<char>): string
    requires |fill| >= minLength
  {
    if |base| < minLength then base + fill[..minLength - |base|] else base
  }

  /** The four appending steps of `suggestStrongerPassword`, in source order. */
  function Appended(current: string, p: Policy): string {
    AppendIf(AppendIf(AppendIf(AppendIf(current, p.requireLowercase, IsLower, 'a'),
      p.requireUppercase, IsUpper, 'A'), p.requireNumbers, IsDigit, '1'), p.requireSpecial, IsSpecial, '!')
  }

  /** `ch` appended when its class is required and `s` has no character of it. */
  function AppendIf(s: string, required: bool, kind: char -> bool, ch: char): string {
    if required && !Has(s, kind) then s + [ch] else s
  }

  /** The `while (p.length < policy.minLength)` loop of `suggestStrongerPassword`. */
  method PadWithFill(base: string, minLength: int, fill: seq<char>) returns (r: string)
    requires |fill| >= minLength
    ensures r == Padded(base, minLength, fill)
    ensures |r| >= |base| && r[..|base|] == base
    ensures |r| >= minLength
    ensures |r| == |base| || |r| == minLength
    ensures forall k :: |base| <= k < |r| ==> r[k] in fill
  {
    r := base;
    var i := 0;
    while |r| < minLength
      invariant |r| == |base| + i && i <= |fill|
      invariant r == base + fill[..i] && r[..|base|] == base
      invariant forall k :: |base| <= k < |r| ==> r[k] in fill
      invariant i > 0 ==> |r| <= minLength
      decreases minLength - |r|
    {
      r := r + [fill[i]];
      i := i + 1;
    }
  }

  /** The four `if` statements of `suggestStrongerPassword`: "a", "A", "1" and "!" for each
    * required class still missing. */
  method AppendMissing(current: string, policy: Policy) returns (r: string)
    ensures r == Appended(current, policy)
    ensures |current| <= |r| <= |current| + 4 && r[..|current|] == current
    ensures forall k :: |current| <= k < |r| ==> r[k] in "aA1!"
    ensures (policy.requireLowercase ==> Has(r, IsLower)) && (policy.requireUppercase ==> Has(r, IsUpper))
    ensures (policy.requireNumbers ==> Has(r, IsDigit)) && (policy.requireSpecial ==> Has(r, IsSpecial))
  {
    var r1 := AppendIfMissing(current, policy.requireLowercase, IsLower, 'a');
    var r2 := AppendIfMissing(r1, policy.requireUppercase, IsUpper, 'A');
    var r3 := AppendIfMissing(r2, policy.requireNumbers, IsDigit, '1');
    assert IsSpecial('!');
    r := AppendIfMissing(r3, policy.requireSpecial, IsSpecial, '!');
    AppendedExtends(current, policy);
    AppendedHas(current, policy);
  }

  /** The appending steps only add characters of "aA1!" after `current`, at most four. */
  lemma AppendedExtends(current: string, p: Policy)
    ensures AppendedTo(current, Appended(current, p)) && |Appended(current, p)| <= |current| + 4
  {
    var s1 := AppendIf(current, p.requireLowercase, IsLower, 'a');
    var s2 := AppendIf(s1, p.requireUppercase, IsUpper, 'A');
    var s3 := AppendIf(s2, p.requireNumbers, IsDigit, '1');
    assert AppendedTo(current, current);
    AppendedStep(current, current, s1, 'a');
    AppendedStep(current, s1, s2, 'A');
    AppendedStep(current, s2, s3, '1');
    AppendedStep(current, s3, Appended(current, p), '!');
  }

  /** After the appending steps every required class is present. */
  lemma AppendedHas(current: string, p: Policy)
    ensures (p.requireLowercase ==> Has(Appended(current, p), IsLower))
         && (p.requireUppercase ==> Has(Appended(current, p), IsUpper))
    ensures (p.requireNumbers ==> Has(Appended(current, p), IsDigit))
         && (p.requireSpecial ==> Has(Appended(current, p), IsSpecial))
  {
    var s1 := AppendIf(current, p.requireLowercase, IsLower, 'a');
    var s2 := AppendIf(s1, p.requireUppercase, IsUpper, 'A');
    var s3 := AppendIf(s2, p.requireNumbers, IsDigit, '1');
    var s4 := Appended(current, p);
    AppendIfHas(current, p.requireLowercase, IsLower, 'a');
    AppendIfHas(s1, p.requireUppercase, IsUpper, 'A');
    AppendIfHas(s2, p.requireNumbers, IsDigit, '1');
    assert IsSpecial('!');
    AppendIfHas(s3, p.requireSpecial, IsSpecial, '!');
    if p.requireLowercase { HasExtends(s1, s2, IsLower); HasExtends(s2, s3, IsLower); HasExtends(s3, s4, IsLower); }
    if p.requireUppercase { HasExtends(s2, s3, IsUpper); HasExtends(s3, s4, IsUpper); }
    if p.requireNumbers { HasExtends(s3, s4, IsDigit); }
  }

  /** One appending step keeps `s` as a prefix and makes its class present when required. */
  lemma AppendIfHas(s: string, required: bool, kind: char -> bool, ch: char)
    requires kind(ch)
    ensures |s| <= |AppendIf(s, required, kind, ch)| && AppendIf(s, required, kind, ch)[..|s|] == s
    ensures required ==> Has(AppendIf(s, required, kind, ch), kind)
  {
    if required && !Has(s, kind) {
      assert kind(AppendIf(s, required, kind, ch)[|s|]);
    }
  }

  /** `s` is `current` followed only by characters of "aA1!". */
  ghost predicate AppendedTo(current: string, s: string) {
    |current| <= |s| && s[..|current|] == current
    && forall k :: |current| <= k < |s| ==> s[k] in "aA1!"
  }

  /** One more step of `AppendMissing` keeps `AppendedTo`. */
  lemma AppendedStep(current: string, s: string, r: string, ch: char)
    requires AppendedTo(current, s)
    requires r == s || r == s + [ch]
    requires ch in "aA1!"
    ensures AppendedTo(current, r)
  {
    if r != s {
      assert r[..|current|] == s[..|current|];
    }
  }

  /** One `if (policy.requireX && !/X/.test(p)) p += "x"` step. */
  method AppendIfMissing(s: string, required: bool, kind: char -> bool, ch: char) returns (r: string)
    requires kind(ch)
    ensures r == AppendIf(s, required, kind, ch)
    ensures r == s || r == s + [ch]
    ensures |s| <= |r| && r[..|s|] == s
    ensures required ==> Has(r, kind)
  {
    r := s;
    if required && !Has(s, kind) {
      r := s + [ch];
      assert kind(r[|s|]);
    }
  }

  /** Extending a string keeps every character class it already holds. */
  lemma HasExtends(base: string, r: string, p: char -> bool)
    requires |base| <= |r| && r[..|base|] == base && Has(base, p)
    ensures Has(r, p)
  {
    var i :| 0 <= i < |base| && p(base[i]);
    assert r[i] == base[i];
  }

  // ---------------------------------------------------------------- history, preview, common

  /** The history effect: a non-empty password not yet listed goes first, and the list keeps five. */
  function Remember(history: seq<string>, pwd: string): (r: seq<string>)
    ensures pwd == "" || pwd in history ==> r == history
    ensures pwd != "" ==> pwd in r
    ensures |history| <= 5 ==> |r| <= 5
    ensures forall k :: 0 <= k < |r| ==> r[k] == pwd || r[k] in history
    ensures NoDup(history) ==> NoDup(r)
    ensures |r| <= |history| + 1
    ensures pwd != "" && pwd !in history ==> |r| == Min(|history| + 1, 5)
    ensures pwd != "" && pwd !in history ==> |r| >= 1 && r[0] == pwd && r[1..] == history[..|r| - 1]
  {
    if pwd != "" && pwd !in history then
      var r := ([pwd] + history)[..Min(|history| + 1, 5)];
      assert r[0] == pwd;
      r
    else history
  }

  /** `renderPasswordPreview`: the first three characters, then one '*' per remaining character. */
  function Preview(pwd: string): (r: string)
    ensures |r| == |pwd|
    ensures |pwd| <= 3 ==> r == pwd
    ensures |pwd| > 3 ==> r[..3] == pwd[..3] && forall k :: 3 <= k < |r| ==> r[k] == '*'
  {
    if |pwd| <= 3 then pwd else pwd[..3] + Repeat('*', |pwd| - 3)
  }

  /** Masking a preview again changes nothing. */
  lemma PreviewIdempotent(pwd: string)
    ensures Preview(Preview(pwd)) == Preview(pwd)
  {
    if |pwd| > 3 {
      assert Preview(pwd)[..3] + Repeat('*', |pwd| - 3) == Preview(pwd);
    }
  }

  const CommonPasswords: seq<string> := [
    "123456", "password", "12345678", "qwerty", "123456789", "12345", "1234",
    "111111", "1234567", "dragon", "123123", "baseball", "abc123", "football",
    "monkey", "letmein", "shadow", "master", "666666", "qwertyuiop"]

  /** `isCommonPassword`: the lower-cased password is on the list. */
  predicate IsCommonPassword(pwd: string): (b: bool)
    ensures b ==> 4 <= |pwd| <= 10
  {
    Lower(pwd) in CommonPasswords
  }

  /** The check ignores case, and every listed password is flagged as typed. */
  lemma CommonIgnoresCase(pwd: string, k: int)
    requires 0 <= k < |CommonPasswords|
    ensures IsCommonPassword(pwd) <==> IsCommonPassword(Lower(pwd))
    ensures IsCommonPassword(CommonPasswords[k])
  {
    LowerIdempotent(pwd);
    LowerOfNoUpper(CommonPasswords[k]);
  }

  // ---------------------------------------------------------------- the checker

  class Checker {
    var password: string
    var strength: nat
    var history: seq<string>
    var policy: Policy

    ghost predicate Valid()
      reads this
    {
      InRange(policy) && strength == Strength(password, policy)
      && |history| <= 5 && NoDup(history) && "" !in history
    }

    constructor()
      ensures Valid()
      ensures password == "" && strength == 0 && history == [] && policy == DefaultPolicy
    {
      password := "";
      strength := 0;
      history := [];
      policy := DefaultPolicy;
    }

    /** The effect on `[password, policy]`. */
    method Refresh()
      requires InRange(policy) && |history| <= 5 && NoDup(history) && "" !in history
      modifies this`strength, this`history
      ensures Valid()
      ensures strength == Strength(password, policy)
      ensures history == Remember(old(history), password)
    {
      strength := CalculateStrength(password, policy);
      history := Remember(history, password);
    }

    /** Typing, or `handleRevertPassword`, followed by the effect. */
    method SetPassword(pwd: string)
      requires Valid()
      modifies this`password, this`strength, this`history
      ensures Valid()
      ensures password == pwd && history == Remember(old(history), pwd)
    {
      password := pwd;
      Refresh();
    }

    /** A policy edit, followed by the effect. */
    method SetPolicy(p: Policy)
      requires Valid() && InRange(p)
      modifies this`policy, this`strength, this`history
      ensures Valid()
      ensures policy == p && history == Remember(old(history), password)
    {
      policy := p;
      Refresh();
    }

    /** `handleGeneratePassword`, with the fix-ups corrected as above. */
    method Generate(d: Draws)
      requires Valid() && |d.chars| == policy.minLength && UnitDraws(d)
      modifies this`password, this`strength, this`history
      ensures Valid()
      ensures policy == old(policy) && password == GeneratedCompliant(policy, d)
      ensures history == Remember(old(history), password)
      ensures Compliant(password, policy)
    {
      var pwd := GenerateCompliantPassword(policy, d);
      SetPassword(pwd);
    }

    /** `handleSuggestStrongerPassword`. */
    method Suggest(fill: seq<char>)
      requires Valid() && |fill| >= policy.minLength
      modifies this`password, this`strength, this`history
      ensures Valid()
      ensures policy == old(policy) && password == Suggested(old(password), policy, fill)
      ensures history == Remember(old(history), password)
      ensures Compliant(password, policy)
      ensures |password| >= |old(password)| && password[..|old(password)|] == old(password)
    {
      var pwd := SuggestStrongerPassword(password, policy, fill);
      SetPassword(pwd);
    }
  }
}
