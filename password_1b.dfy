/** The password manager of src/tasks/41145/1b.jsx: a `criteria` object of five keys
  * edited by checkboxes, a strength of 0 to 100 in steps of 20 with its label, the
  * met-criteria record, a case-insensitive common-password check and a generator
  * whose pool is built by iterating the criteria keys. Random numbers are parameters. */
module PasswordB {
  import opened Text
  import opened PasswordCommon

  /** The keys of `criteria`, in the order the object literal declares them. */
  datatype Key = Length | Uppercase | Lowercase | Numbers | Special

  const KeyOrder: seq<Key> := [Length, Uppercase, Lowercase, Numbers, Special]

  /** A value of `criteria`: `length` starts as the number 8; every checkbox, the
    * `length` one included, stores a boolean. */
  datatype Setting = Num(n: int) | Bool(b: bool)

  /** JavaScript truthiness of a setting. */
  predicate Truthy(s: Setting) {
    match s
    case Num(n) => n != 0
    case Bool(b) => b
  }

  /** The number a setting stands for in `<` and `>=`: `true` is 1 and `false` is 0. */
  function NumValue(s: Setting): int {
    match s
    case Num(n) => n
    case Bool(b) => if b then 1 else 0
  }

  type Criteria = map<Key, Setting>

  predicate WellKeyed(c: Criteria) {
    Length in c && Uppercase in c && Lowercase in c && Numbers in c && Special in c
  }

  const InitialCriteria: Criteria :=
    map[Length := Num(8), Uppercase := Bool(true), Lowercase := Bool(true), Numbers := Bool(true), Special := Bool(true)]

  /** `updateCriteria(key, value)`: `{ ...prev, [key]: value }`. */
  function UpdateCriteria(c: Criteria, key: Key, value: Setting): (r: Criteria)
    ensures key in r && r[key] == value
    ensures forall k :: k in c && k != key ==> k in r && r[k] == c[k]
    ensures WellKeyed(c) ==> WellKeyed(r)
  {
    c[key := value]
  }

  /** Writing the same key twice keeps only the second value. */
  lemma UpdateTwice(c: Criteria, key: Key, v: Setting, w: Setting)
    ensures UpdateCriteria(UpdateCriteria(c, key, v), key, w) == UpdateCriteria(c, key, w)
  {
  }

  /** The class `[!@#$%^&*()_+\-=\[\]{};':"\\|,.<>\/?]`. */
  const SpecialClass: string := "!@#$%^&*()_+-=[]{};':\"\\|,.<>/?"

  predicate IsSpecial(c: char) {
    c in SpecialClass
  }

  /** Two characters the generator draws that the special-character test does not accept. */
  lemma GeneratorSpecialsNotAllCounted()
    ensures '~' in GeneratorSpecials && !IsSpecial('~')
    ensures '`' in GeneratorSpecials && !IsSpecial('`')
  {
    assert GeneratorSpecials[12] == '~' && GeneratorSpecials[13] == '`';
    OutsideSpecialClass('~');
    OutsideSpecialClass('`');
  }

  lemma OutsideSpecialClass(c: char)
    requires c == '~' || c == '`'
    ensures !IsSpecial(c)
  {
    forall k | 0 <= k < |SpecialClass|
      ensures SpecialClass[k] != c
    {
    }
  }

  // ---------------------------------------------------------------- strength

  /** `checkPasswordStrength`'s score: one point per criterion met and switched on. */
  function Score(pwd: string, c: Criteria): (s: nat)
    requires WellKeyed(c)
    ensures s <= 5
  {
    Count(|pwd| >= NumValue(c[Length])) + Count(Has(pwd, IsUpper) && Truthy(c[Uppercase]))
    + Count(Has(pwd, IsLower) && Truthy(c[Lowercase])) + Count(Has(pwd, IsDigit) && Truthy(c[Numbers]))
    + Count(Has(pwd, IsSpecial) && Truthy(c[Special]))
  }

  /** `(score / 5) * 100`, exact for every score from 0 to 5. */
  function StrengthOf(pwd: string, c: Criteria): (s: int)
    requires WellKeyed(c)
    ensures s % 20 == 0 && 0 <= s <= 100
  {
    Score(pwd, c) * 20
  }

  /** `getStrengthLabel`. */
  function LabelOf(strength: int): (r: Level)
    ensures r == VeryWeak <==> strength < 20
    ensures r == VeryStrong <==> strength >= 80
  {
    if strength < 20 then VeryWeak
    else if strength < 40 then Weak
    else if strength < 60 then Moderate
    else if strength < 80 then Strong
    else VeryStrong
  }

  /** The label never drops as the strength rises. */
  lemma LabelMonotone(a: int, b: int)
    requires a <= b
    ensures Rank(LabelOf(a)) <= Rank(LabelOf(b))
  {
  }

  /** On the strengths the meter can show, the label is the score's rank capped at
    * "Very Strong": four and five criteria both read "Very Strong". */
  lemma LabelOfScore(pwd: string, c: Criteria)
    requires WellKeyed(c)
    ensures Rank(LabelOf(StrengthOf(pwd, c))) == if Score(pwd, c) >= 4 then 4 else Score(pwd, c)
  {
  }

  /** `metCriteria`: whether each test passes, whatever the checkboxes say about the classes. */
  datatype Met = Met(length: bool, uppercase: bool, lowercase: bool, numbers: bool, special: bool)

  function MetCriteria(pwd: string, c: Criteria): (m: Met)
    requires WellKeyed(c)
    ensures m.length <==> |pwd| >= NumValue(c[Length])
    ensures m.uppercase == Has(pwd, IsUpper) && m.lowercase == Has(pwd, IsLower)
    ensures m.numbers == Has(pwd, IsDigit) && m.special == Has(pwd, IsSpecial)
  {
    Met(|pwd| >= NumValue(c[Length]), Has(pwd, IsUpper), Has(pwd, IsLower), Has(pwd, IsDigit), Has(pwd, IsSpecial))
  }

  /** Unticking a class checkbox leaves the met record as it was, yet can lower the score. */
  lemma MetIgnoresClassSwitches(pwd: string, c: Criteria, k: Key, b: bool)
    requires WellKeyed(c) && k != Length
    ensures MetCriteria(pwd, UpdateCriteria(c, k, Bool(b))) == MetCriteria(pwd, c)
    ensures Score(pwd, UpdateCriteria(c, k, Bool(false))) <= Score(pwd, c)
  {
  }

  // ---------------------------------------------------------------- common passwords

  const CommonPasswords: seq<string> := ["password", "123456", "qwerty"]

  /** `checkCommonPassword`: the lower-cased password is on the list. */
  predicate IsCommon(pwd: string) {
    Lower(pwd) in CommonPasswords
  }

  /** Case does not matter: "PassWord" is flagged like "password". */
  lemma CommonIgnoresCase(pwd: string)
    ensures IsCommon(pwd) <==> IsCommon(Lower(pwd))
    ensures IsCommon("PassWord")
  {
    LowerIdempotent(pwd);
    assert Lower("PassWord") == "password";
  }

  // ---------------------------------------------------------------- generation

  /** `charset[type]`: the key `length` has no entry, and `+=` appends `undefined` as text. */
  function CharsetFor(k: Key): string {
    match k
    case Length => "undefined"
    case Uppercase => UppercaseChars
    case Lowercase => LowercaseChars
    case Numbers => NumberChars
    case Special => GeneratorSpecials
  }

  /** `criteria[type]` as a condition: a key that is absent reads as `undefined`, which is falsy. */
  predicate On(c: Criteria, k: Key) {
    k in c && Truthy(c[k])
  }

  /** The pool after visiting `keys` in order, adding the characters of each truthy key. */
  function PoolOf(c: Criteria, keys: seq<Key>): (r: string)
    ensures r != "" <==> exists k :: 0 <= k < |keys| && On(c, keys[k])
  {
    if keys == [] then ""
    else PoolOf(c, keys[..|keys| - 1]) + (if On(c, keys[|keys| - 1]) then CharsetFor(keys[|keys| - 1]) else "")
  }

  /** The pool in full: "undefined" when `length` is truthy, then upper-case, lower-case,
    * digits and special characters for the ticked classes. */
  lemma PoolInKeyOrder(c: Criteria)
    requires WellKeyed(c)
    ensures PoolOf(c, KeyOrder) ==
      (if Truthy(c[Length]) then "undefined" else "")
      + (if Truthy(c[Uppercase]) then UppercaseChars else "")
      + (if Truthy(c[Lowercase]) then LowercaseChars else "")
      + (if Truthy(c[Numbers]) then NumberChars else "")
      + (if Truthy(c[Special]) then GeneratorSpecials else "")
  {
    var k1 := [Length];
    var k2 := k1 + [Uppercase];
    var k3 := k2 + [Lowercase];
    var k4 := k3 + [Numbers];
    assert k4 + [Special] == KeyOrder;
    assert PoolOf(c, k1) == (if Truthy(c[Length]) then "undefined" else "") by {
      assert k1[..0] == [];
    }
    PoolSnoc(c, k1, Uppercase, Truthy(c[Uppercase]), UppercaseChars);
    PoolSnoc(c, k2, Lowercase, Truthy(c[Lowercase]), LowercaseChars);
    PoolSnoc(c, k3, Numbers, Truthy(c[Numbers]), NumberChars);
    PoolSnoc(c, k4, Special, Truthy(c[Special]), GeneratorSpecials);
  }

  /** Visiting one more key appends that key's characters when it is truthy. */
  lemma PoolSnoc(c: Criteria, keys: seq<Key>, k: Key, on: bool, chars: string)
    requires on == On(c, k) && chars == CharsetFor(k)
    ensures PoolOf(c, keys + [k]) == PoolOf(c, keys) + (if on then chars else "")
  {
    assert (keys + [k])[..|keys|] == keys;
  }

  /** With the length checkbox ticked (or the initial 8), the pool starts with the text
    * "undefined", so the generator can draw its letters. */
  lemma PoolStartsWithUndefined(c: Criteria)
    requires WellKeyed(c) && Truthy(c[Length])
    ensures |PoolOf(c, KeyOrder)| >= 9 && PoolOf(c, KeyOrder)[..9] == "undefined"
  {
    PoolInKeyOrder(c);
  }

  /** The pool is empty only when every key is falsy. */
  lemma EmptyPool(c: Criteria)
    requires WellKeyed(c)
    ensures PoolOf(c, KeyOrder) == [] <==>
      !Truthy(c[Length]) && !Truthy(c[Uppercase]) && !Truthy(c[Lowercase]) && !Truthy(c[Numbers]) && !Truthy(c[Special])
  {
    PoolInKeyOrder(c);
  }

  /** `for (let type in criteria) if (criteria[type]) pool += charset[type]`. */
  method BuildPool(c: Criteria) returns (pool: string)
    requires WellKeyed(c)
    ensures pool == PoolOf(c, KeyOrder)
  {
    pool := "";
    var i := 0;
    while i < |KeyOrder|
      invariant 0 <= i <= |KeyOrder|
      invariant pool == PoolOf(c, KeyOrder[..i])
    {
      assert KeyOrder[..i + 1][..i] == KeyOrder[..i];
      var k := KeyOrder[i];
      if k in c && Truthy(c[k]) {
        pool := pool + CharsetFor(k);
      }
      i := i + 1;
    }
    assert KeyOrder[..i] == KeyOrder;
  }

  /** `generatePassword`: `criteria.length` characters of the pool, where a ticked `length`
    * checkbox stands for 1 and an unticked one for 0; an empty pool gives "". */
  method GeneratePassword(c: Criteria, rs: seq<real>) returns (pw: string)
    requires WellKeyed(c) && NumValue(c[Length]) <= |rs| && forall k :: 0 <= k < |rs| ==> Unit(rs[k])
    ensures PoolOf(c, KeyOrder) != [] ==> |pw| == (if NumValue(c[Length]) < 0 then 0 else NumValue(c[Length]))
    ensures PoolOf(c, KeyOrder) == [] ==> pw == ""
    ensures forall k :: 0 <= k < |pw| ==> pw[k] in PoolOf(c, KeyOrder)
  {
    var pool := BuildPool(c);
    pw := DrawLoop(pool, NumValue(c[Length]), rs);
  }

  // ---------------------------------------------------------------- the app

  class App {
    var password: string
    var strength: int
    var criteria: Criteria
    var met: Met
    var isCommon: bool

    /** The effect on `[password]` keeps the warning current; `strength` is a multiple of 20
      * but, as the effect does not watch `criteria`, it may be stale after a checkbox edit. */
    ghost predicate Valid()
      reads this
    {
      WellKeyed(criteria) && strength % 20 == 0 && 0 <= strength <= 100 && isCommon == IsCommon(password)
    }

    constructor()
      ensures Valid()
      ensures password == "" && strength == 0 && criteria == InitialCriteria && !isCommon
    {
      password := "";
      strength := 0;
      criteria := InitialCriteria;
      met := Met(false, false, false, false, false);
      isCommon := false;
      assert Lower("") == "";
    }

    /** A new password (typed or generated). The effect on `[password]` runs only when
      * the password differs from the one before; setting the same one changes nothing. */
    method SetPassword(pwd: string)
      requires Valid()
      modifies this`password, this`strength, this`met, this`isCommon
      ensures Valid()
      ensures password == pwd
      ensures pwd != old(password) ==>
        strength == StrengthOf(pwd, criteria) && met == MetCriteria(pwd, criteria) && isCommon == IsCommon(pwd)
      ensures pwd == old(password) ==>
        strength == old(strength) && met == old(met) && isCommon == old(isCommon)
    {
      if pwd != password {
        password := pwd;
        strength := StrengthOf(password, criteria);
        met := MetCriteria(password, criteria);
        isCommon := IsCommon(password);
      }
    }

    /** A checkbox: the criteria change, the strength does not until the password does. */
    method SetCriterion(key: Key, checked: bool)
      requires Valid()
      modifies this`criteria
      ensures Valid()
      ensures criteria == UpdateCriteria(old(criteria), key, Bool(checked))
    {
      criteria := UpdateCriteria(criteria, key, Bool(checked));
    }

    /** The "Generate Password" button. */
    method Generate(rs: seq<real>)
      requires Valid() && NumValue(criteria[Length]) <= |rs| && forall k :: 0 <= k < |rs| ==> Unit(rs[k])
      modifies this`password, this`strength, this`met, this`isCommon
      ensures Valid()
      ensures PoolOf(criteria, KeyOrder) != [] ==>
        |password| == (if NumValue(criteria[Length]) < 0 then 0 else NumValue(criteria[Length]))
      ensures PoolOf(criteria, KeyOrder) == [] ==> password == ""
      ensures forall k :: 0 <= k < |password| ==> password[k] in PoolOf(criteria, KeyOrder)
      ensures password != old(password) ==> strength == StrengthOf(password, criteria)
      ensures password == old(password) ==> strength == old(strength)
    {
      var pw := GeneratePassword(criteria, rs);
      SetPassword(pw);
    }
  }
}
