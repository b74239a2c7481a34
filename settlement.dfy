/** The greedy debt settlement of the expense splitter (src/tasks/41113/1a.jsx,
  * `settlement`): balances are sorted ascending, a debtor pointer starts at the
  * smallest and a creditor pointer at the largest, and each step pays the
  * smaller of the two amounts. Balances are whole cents here, so the source's
  * test "less than 0.01 dollars" reads "less than one cent". */
module Settlement {
  import opened Seqs
  import opened Sorting

  /** One `[name, balance]` pair of `Object.entries(balances)`. */
  datatype Balance = Balance(name: string, cents: int)

  /** One line "`from` pays `to` $amount". */
  datatype Transfer = Transfer(from: string, to: string, cents: int)

  function Cents(b: Balance): int { b.cents }
  function Name(b: Balance): string { b.name }

  function Abs(x: int): (r: nat)
    ensures r == x || r == -x
  {
    if x < 0 then -x else x
  }

  /** Math.min(-owed, due): what the debtor owes, capped by what the creditor is due. */
  function Debt(owed: int, due: int): (d: int)
    ensures d <= -owed && d <= due
    ensures d == -owed || d == due
  {
    if -owed <= due then -owed else due
  }

  /** How much a transfer raises the balance of `name`: paying raises it,
    * being paid lowers it. */
  function Delta(tr: Transfer, name: string): int {
    (if tr.from == name then tr.cents else 0) - (if tr.to == name then tr.cents else 0)
  }

  /** The net effect of a list of transfers on the balance of `name`. */
  function Net(t: seq<Transfer>, name: string): int {
    if t == [] then 0 else Net(t[..|t| - 1], name) + Delta(t[|t| - 1], name)
  }

  /** A participant's balance once the transfers have been made. */
  function Settled(t: seq<Transfer>): Balance -> int {
    (b: Balance) => b.cents + Net(t, b.name)
  }

  function NameSet(bs: seq<Balance>): set<string> {
    set b | b in bs :: b.name
  }

  lemma NetAppend(t: seq<Transfer>, tr: Transfer, name: string)
    ensures Net(t + [tr], name) == Net(t, name) + Delta(tr, name)
  {
    assert (t + [tr])[..|t|] == t;
  }

  /** Each working balance is its sorted original plus the net of the transfers so far. */
  ghost predicate Linked(s: seq<Balance>, cur: seq<Balance>, t: seq<Transfer>) {
    |cur| == |s| && forall k :: 0 <= k < |s| ==> cur[k] == Balance(s[k].name, Settled(t)(s[k]))
  }

  /** The balances after paying `d` from position i to position j. */
  function Pay(cur: seq<Balance>, i: nat, j: nat, d: int): (next: seq<Balance>)
    requires i < |cur| && j < |cur|
    ensures |next| == |cur|
  {
    cur[i := cur[i].(cents := cur[i].cents + d)][j := cur[j].(cents := cur[j].cents - d)]
  }

  /** One payment step keeps every working balance linked to the transfers, and
    * keeps the sum of the working balances unchanged. */
  lemma PayStep(s: seq<Balance>, cur: seq<Balance>, done: seq<Transfer>, i: nat, j: nat, d: int)
    requires i < j < |s|
    requires forall p, q :: 0 <= p < |s| && 0 <= q < |s| && p != q ==> s[p].name != s[q].name
    requires Linked(s, cur, done)
    ensures Linked(s, Pay(cur, i, j, d), done + [Transfer(s[i].name, s[j].name, d)])
    ensures SumOf(Pay(cur, i, j, d), Cents) == SumOf(cur, Cents)
  {
    PayLinked(s, cur, done, i, j, d);
    PaySum(cur, i, j, d);
  }

  lemma PayLinked(s: seq<Balance>, cur: seq<Balance>, done: seq<Transfer>, i: nat, j: nat, d: int)
    requires i < j < |s|
    requires forall p, q :: 0 <= p < |s| && 0 <= q < |s| && p != q ==> s[p].name != s[q].name
    requires Linked(s, cur, done)
    ensures Linked(s, Pay(cur, i, j, d), done + [Transfer(s[i].name, s[j].name, d)])
  {
    var tr := Transfer(s[i].name, s[j].name, d);
    var next := Pay(cur, i, j, d);
    forall k | 0 <= k < |s| ensures next[k] == Balance(s[k].name, Settled(done + [tr])(s[k])) {
      NetAppend(done, tr, s[k].name);
    }
  }

  lemma PaySum(cur: seq<Balance>, i: nat, j: nat, d: int)
    requires i < j < |cur|
    ensures SumOf(Pay(cur, i, j, d), Cents) == SumOf(cur, Cents)
  {
    var next := Pay(cur, i, j, d);
    SumOfUpdate(cur, i, next[i], Cents);
    SumOfUpdate(cur[i := next[i]], j, next[j], Cents);
  }

  lemma NamesDistinct(s: seq<Balance>)
    requires InjectiveOn(s, Name)
    ensures forall p, q :: 0 <= p < |s| && 0 <= q < |s| && p != q ==> s[p].name != s[q].name
  {
    forall p, q | 0 <= p < |s| && 0 <= q < |s| && s[p].name == s[q].name ensures p == q {
      assert Name(s[p]) == Name(s[q]);
    }
  }

  /** The state of the loop when the sorted balances sum to zero: everything
    * outside i..j is settled, the untouched middle is the sorted input, the
    * window still sums to zero, the debtor side is not positive and the
    * creditor side is positive unless the whole window is settled. */
  ghost predicate Settling(s: seq<Balance>, cur: seq<Balance>, i: int, j: int) {
    |cur| == |s| && 0 <= i <= j < |s| &&
    (forall k :: 0 <= k < i ==> cur[k].cents == 0) &&
    (forall k :: j < k < |s| ==> cur[k].cents == 0) &&
    (forall k :: i < k < j ==> cur[k] == s[k]) &&
    SumOf(cur[i..j + 1], Cents) == 0 &&
    cur[i].cents <= 0 &&
    (cur[j].cents > 0 || forall k :: i <= k <= j ==> cur[k].cents == 0)
  }

  lemma SettleStart(s: seq<Balance>)
    requires SortedBy(s, Cents) && |s| > 0 && SumOf(s, Cents) == 0
    ensures Settling(s, s, 0, |s| - 1)
  {
    var n := |s|;
    assert s[0..n] == s;
    if s[0].cents > 0 {
      assert forall k :: 0 <= k < n ==> Cents(s[0]) <= Cents(s[k]);
      SumOfPositive(s, Cents);
    }
    if s[n - 1].cents <= 0 {
      assert forall k :: 0 <= k < n ==> Cents(s[k]) <= Cents(s[n - 1]);
      SumOfNonPositive(s, Cents);
    }
  }

  /** A settled debtor is skipped (`i++`). */
  lemma SettleSkip(s: seq<Balance>, cur: seq<Balance>, i: int, j: int)
    requires SortedBy(s, Cents) && Settling(s, cur, i, j) && i < j && cur[i].cents == 0
    ensures Settling(s, cur, i + 1, j)
  {
    assert cur[i..j + 1][1..] == cur[i + 1..j + 1];
    if cur[i + 1].cents > 0 {
      var w := cur[i + 1..j + 1];
      forall k | 0 <= k < |w| ensures Cents(w[k]) > 0 {
        if i + 1 + k < j {
          assert Cents(s[i + 1]) <= Cents(s[i + 1 + k]);
        }
      }
      SumOfPositive(w, Cents);
      assert false;
    }
  }

  /** A payment of `Debt` from i to j, followed by `j--` when j reaches zero. */
  lemma SettlePay(s: seq<Balance>, cur: seq<Balance>, i: nat, j: nat)
    requires SortedBy(s, Cents) && Settling(s, cur, i, j) && i < j && cur[i].cents != 0
    ensures Debt(cur[i].cents, cur[j].cents) > 0
    ensures var next := Pay(cur, i, j, Debt(cur[i].cents, cur[j].cents));
      (next[j].cents == 0 ==> Settling(s, next, i, j - 1)) &&
      (next[j].cents != 0 ==> Settling(s, next, i, j) && next[i].cents == 0)
  {
    var d := Debt(cur[i].cents, cur[j].cents);
    var next := Pay(cur, i, j, d);
    WindowSum(cur, i, j, d);
    if next[j].cents == 0 {
      CreditorSettled(s, next, i, j);
    }
  }

  /** A payment inside the window i..j keeps the window's sum. */
  lemma WindowSum(cur: seq<Balance>, i: nat, j: nat, d: int)
    requires i < j < |cur|
    ensures SumOf(Pay(cur, i, j, d)[i..j + 1], Cents) == SumOf(cur[i..j + 1], Cents)
  {
    var next := Pay(cur, i, j, d);
    var w, w' := cur[i..j + 1], next[i..j + 1];
    assert w' == w[0 := next[i]][j - i := next[j]];
    SumOfUpdate(w, 0, next[i], Cents);
    SumOfUpdate(w[0 := next[i]], j - i, next[j], Cents);
  }

  /** After the creditor at j reaches zero, the window shrinks to i..j-1. */
  lemma CreditorSettled(s: seq<Balance>, next: seq<Balance>, i: nat, j: nat)
    requires SortedBy(s, Cents) && |next| == |s| && i < j < |s|
    requires forall k :: 0 <= k < i ==> next[k].cents == 0
    requires forall k :: j <= k < |s| ==> next[k].cents == 0
    requires forall k :: i < k < j ==> next[k] == s[k]
    requires SumOf(next[i..j + 1], Cents) == 0 && next[i].cents <= 0
    ensures Settling(s, next, i, j - 1)
  {
    var w' := next[i..j + 1];
    SumOfLast(w', Cents);
    assert w'[..|w'| - 1] == next[i..j];
    if j - 1 > i && next[j - 1].cents <= 0 {
      var v := next[i..j];
      forall k | 0 <= k < |v| ensures Cents(v[k]) <= 0 {
        if 0 < k {
          assert Cents(s[i + k]) <= Cents(s[j - 1]);
        }
      }
      SumOfNonPositive(v, Cents);
    }
    if j - 1 == i {
      assert next[i..j] == [next[i]];
    }
  }

  /** When the pointers meet the window is one balance, which is then zero. */
  lemma SettleEnd(s: seq<Balance>, cur: seq<Balance>, i: int)
    requires Settling(s, cur, i, i)
    ensures forall k :: 0 <= k < |cur| ==> cur[k].cents == 0
  {
    assert cur[i..i + 1] == [cur[i]];
  }

  predicate AllPositive(t: seq<Transfer>) {
    forall m :: 0 <= m < |t| ==> t[m].cents > 0
  }

  /** `sortedBalances[i][1] += debt; sortedBalances[j][1] -= debt` (lines 107-108). */
  method PayInPlace(a: array<Balance>, i: nat, j: nat, debt: int)
    requires i < j < a.Length
    modifies a
    ensures a[..] == Pay(old(a[..]), i, j, debt)
  {
    a[i] := a[i].(cents := a[i].cents + debt);
    a[j] := a[j].(cents := a[j].cents - debt);
  }

  /** `settlement` (lines 91-112): sorts `Object.entries(balances)` by balance
    * and runs the two-pointer loop on the sorted copy; the caller's balances are
    * a value and are not touched. */
  method Settle(balances: seq<Balance>) returns (transfers: seq<Transfer>)
    requires InjectiveOn(balances, Name)
    ensures |balances| == 0 ==> transfers == []
    ensures |balances| > 0 ==> |transfers| <= |balances| - 1
    ensures forall m :: 0 <= m < |transfers| ==>
      transfers[m].from != transfers[m].to &&
      transfers[m].from in NameSet(balances) && transfers[m].to in NameSet(balances)
    ensures SumOf(balances, Settled(transfers)) == SumOf(balances, Cents)
    ensures SumOf(balances, Cents) == 0 ==>
      (forall m :: 0 <= m < |transfers| ==> transfers[m].cents > 0) &&
      (forall b :: b in balances ==> Settled(transfers)(b) == 0)
  {
    var s := SortBy(balances, Cents);
    SortSum(balances, Cents, Cents);
    SortInjective(balances, Cents, Name);
    NamesDistinct(s);
    transfers := SettleSorted(s);
    SortSum(balances, Cents, Settled(transfers));
    assert NameSet(s) == NameSet(balances) by {
      forall b ensures b in s <==> b in balances {
        assert b in s <==> b in multiset(s);
      }
    }
    forall b | b in balances && SumOf(s, Cents) == 0 ensures Settled(transfers)(b) == 0 {
      assert b in multiset(s);
    }
  }

  /** Every transfer so far is between two different people of `s`. */
  ghost predicate Endpoints(s: seq<Balance>, t: seq<Transfer>) {
    forall m :: 0 <= m < |t| ==> t[m].from != t[m].to && t[m].from in NameSet(s) && t[m].to in NameSet(s)
  }

  /** The invariant of the loop over the sorted balances `s`: the working
    * balances `cur` are linked to the transfers made so far and keep the sum;
    * the bound on the number of transfers (`pending` marks a debtor that was
    * just settled without moving j); and, when the balances sum to zero, the
    * settling window and the positive amounts. */
  ghost predicate LoopInv(s: seq<Balance>, cur: seq<Balance>, t: seq<Transfer>, i: int, j: int, pending: bool) {
    var n := |s|;
    |cur| == n && 0 <= i && j < n &&
    (n == 0 ==> i == 0 && j == -1 && t == []) && (n > 0 ==> i <= j) &&
    Linked(s, cur, t) && SumOf(cur, Cents) == SumOf(s, Cents) &&
    (n > 0 ==> |t| + (j - i) <= n - 1 + (if pending then 1 else 0)) &&
    (pending ==> i < j && Abs(cur[i].cents) < 1) &&
    Endpoints(s, t) &&
    (SumOf(s, Cents) == 0 && n > 0 ==> Settling(s, cur, i, j)) &&
    (SumOf(s, Cents) == 0 ==> AllPositive(t))
  }

  /** Balances with distinct names, sorted ascending: what the loop runs on. */
  ghost predicate Prepared(s: seq<Balance>) {
    SortedBy(s, Cents) &&
    forall p, q :: 0 <= p < |s| && 0 <= q < |s| && p != q ==> s[p].name != s[q].name
  }

  lemma LoopStart(s: seq<Balance>)
    requires Prepared(s)
    ensures LoopInv(s, s, [], 0, |s| - 1, false)
  {
    assert Linked(s, s, []);
    if SumOf(s, Cents) == 0 && |s| > 0 {
      SettleStart(s);
    }
  }

  /** Lines 97-99: a debtor within a cent of zero is skipped. */
  lemma LoopSkip(s: seq<Balance>, cur: seq<Balance>, t: seq<Transfer>, i: int, j: int, pending: bool)
    requires Prepared(s) && LoopInv(s, cur, t, i, j, pending) && i < j && Abs(cur[i].cents) < 1
    ensures LoopInv(s, cur, t, i + 1, j, false)
  {
    if SumOf(s, Cents) == 0 {
      SettleSkip(s, cur, i, j);
    }
  }

  /** Lines 101-109: one payment, then `j--` if the creditor reached zero. */
  lemma LoopPay(s: seq<Balance>, cur: seq<Balance>, t: seq<Transfer>, i: int, j: int, pending: bool)
    requires Prepared(s) && LoopInv(s, cur, t, i, j, pending) && i < j && Abs(cur[i].cents) >= 1
    ensures var d := Debt(cur[i].cents, cur[j].cents);
      var next := Pay(cur, i, j, d);
      var t' := t + [Transfer(cur[i].name, cur[j].name, d)];
      LoopInv(s, next, t', i, if next[j].cents == 0 then j - 1 else j, next[j].cents != 0)
  {
    var d := Debt(cur[i].cents, cur[j].cents);
    var next := Pay(cur, i, j, d);
    var tr := Transfer(cur[i].name, cur[j].name, d);
    assert cur[i].name == s[i].name && cur[j].name == s[j].name;
    PayStep(s, cur, t, i, j, d);
    if SumOf(s, Cents) == 0 {
      SettlePay(s, cur, i, j);
    }
    PayEndpoints(s, t, i, j, d);
    PayClears(cur, i, j);
  }

  /** The new transfer runs between the two different people at i and j. */
  lemma PayEndpoints(s: seq<Balance>, t: seq<Transfer>, i: int, j: int, d: int)
    requires Prepared(s) && Endpoints(s, t) && 0 <= i < j < |s|
    ensures Endpoints(s, t + [Transfer(s[i].name, s[j].name, d)])
  {
    assert s[i] in s && s[j] in s;
  }

  /** A creditor left with a balance means the debtor was paid off. */
  lemma PayClears(cur: seq<Balance>, i: nat, j: nat)
    requires i < j < |cur|
    ensures var next := Pay(cur, i, j, Debt(cur[i].cents, cur[j].cents));
      next[j].cents != 0 ==> next[i].cents == 0
  {
  }

  /** When the pointers meet, the loop's results. */
  lemma LoopEnd(s: seq<Balance>, cur: seq<Balance>, t: seq<Transfer>, i: int, j: int, pending: bool)
    requires LoopInv(s, cur, t, i, j, pending) && i >= j
    ensures |s| == 0 ==> t == []
    ensures |s| > 0 ==> |t| <= |s| - 1
    ensures Endpoints(s, t)
    ensures SumOf(s, Settled(t)) == SumOf(s, Cents)
    ensures SumOf(s, Cents) == 0 ==>
      AllPositive(t) && forall k :: 0 <= k < |s| ==> Settled(t)(s[k]) == 0
  {
    LinkedSum(s, cur, t);
    if SumOf(s, Cents) == 0 && |s| > 0 {
      SettleEnd(s, cur, i);
      LinkedSettled(s, cur, t);
    }
  }

  lemma LinkedSum(s: seq<Balance>, cur: seq<Balance>, t: seq<Transfer>)
    requires Linked(s, cur, t)
    ensures SumOf(s, Settled(t)) == SumOf(cur, Cents)
  {
    SumOfPointwise(s, Settled(t), cur, Cents);
  }

  lemma LinkedSettled(s: seq<Balance>, cur: seq<Balance>, t: seq<Transfer>)
    requires Linked(s, cur, t) && forall k :: 0 <= k < |cur| ==> cur[k].cents == 0
    ensures forall k :: 0 <= k < |s| ==> Settled(t)(s[k]) == 0
  {
    forall k | 0 <= k < |s| ensures Settled(t)(s[k]) == 0 {
      assert cur[k].cents == Settled(t)(s[k]);
    }
  }

  /** One iteration of the loop body (lines 97-109) on the array `a`. */
  method LoopStep(s: seq<Balance>, a: array<Balance>, t: seq<Transfer>, i: int, j: int, ghost pending: bool)
    returns (t': seq<Transfer>, i': int, j': int, ghost pending': bool)
    requires Prepared(s) && a.Length == |s| && LoopInv(s, a[..], t, i, j, pending) && i < j
    modifies a
    ensures LoopInv(s, a[..], t', i', j', pending')
    ensures 0 <= j' - i' < j - i ||
      (j' - i' == j - i && Abs(old(a[i]).cents) >= 1 && Abs(a[i'].cents) < 1)
  {
    if Abs(a[i].cents) < 1 {
      LoopSkip(s, a[..], t, i, j, pending);
      t', i', j', pending' := t, i + 1, j, false;
    } else {
      t', j', pending' := PayDebt(s, a, t, i, j, pending);
      i' := i;
    }
  }

  /** Lines 101-109: the debtor at i pays the creditor at j, and j moves down when
    * the creditor is settled. */
  method PayDebt(s: seq<Balance>, a: array<Balance>, t: seq<Transfer>, i: int, j: int, ghost pending: bool)
    returns (t': seq<Transfer>, j': int, ghost pending': bool)
    requires Prepared(s) && a.Length == |s| && LoopInv(s, a[..], t, i, j, pending) && i < j
    requires Abs(a[i].cents) >= 1
    modifies a
    ensures LoopInv(s, a[..], t', i, j', pending')
    ensures j' == j - 1 || (j' == j && Abs(a[i].cents) < 1)
  {
    LoopPay(s, a[..], t, i, j, pending);
    var debt := Debt(a[i].cents, a[j].cents);
    t' := t + [Transfer(a[i].name, a[j].name, debt)];
    PayInPlace(a, i, j, debt);
    if a[j].cents == 0 {
      j', pending' := j - 1, false;
    } else {
      j', pending' := j, true;
    }
  }

  /** The two-pointer loop of `settlement` (lines 94-111), run in place on an
    * array holding the sorted balances. */
  method SettleSorted(s: seq<Balance>) returns (transfers: seq<Transfer>)
    requires Prepared(s)
    ensures |s| == 0 ==> transfers == []
    ensures |s| > 0 ==> |transfers| <= |s| - 1
    ensures Endpoints(s, transfers)
    ensures SumOf(s, Settled(transfers)) == SumOf(s, Cents)
    ensures SumOf(s, Cents) == 0 ==>
      AllPositive(transfers) && forall k :: 0 <= k < |s| ==> Settled(transfers)(s[k]) == 0
  {
    var n := |s|;
    var a := new Balance[n](k requires 0 <= k < n => s[k]);
    assert a[..] == s;
    LoopStart(s);
    var i, j := 0, n - 1;
    transfers := [];
    ghost var pending := false;
    while i < j
      invariant a.Length == n
      invariant LoopInv(s, a[..], transfers, i, j, pending)
      decreases j - i, if i < n && Abs(a[i].cents) < 1 then 0 else 1
    {
      transfers, i, j, pending := LoopStep(s, a, transfers, i, j, pending);
    }
    LoopEnd(s, a[..], transfers, i, j, pending);
  }
}
