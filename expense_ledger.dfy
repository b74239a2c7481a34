/** The arithmetic shared by both expense splitters (src/tasks/41113/1a.jsx and
  * src/tasks/41113/1b.jsx): the total spent, what each participant paid, and
  * the equal share. Amounts are exact reals. */
module ExpenseLedger {
  import opened Seqs

  datatype Expense = Expense(id: int, description: string, amount: real, payer: string, category: string)

  /** `expenses.reduce((sum, e) => sum + parseFloat(e.amount), 0)`. */
  function Total(es: seq<Expense>): real {
    if es == [] then 0.0 else es[0].amount + Total(es[1..])
  }

  /** What `p` paid: the total of the expenses whose payer is `p`. */
  function PaidBy(es: seq<Expense>, p: string): real {
    Total(Filter(es, (e: Expense) => e.payer == p))
  }

  /** `totalSpent / participants.length || 0`: the equal share of each participant. */
  function PerPerson(es: seq<Expense>, ps: seq<string>): (r: real)
    ensures |ps| > 0 ==> r * (|ps| as real) == Total(es)
    ensures |ps| == 0 ==> r == 0.0
  {
    if |ps| == 0 then 0.0 else Total(es) / (|ps| as real)
  }

  /** `n` equal shares of `x`, added one participant at a time. */
  function Shares(n: nat, x: real): real {
    if n == 0 then 0.0 else x + Shares(n - 1, x)
  }

  lemma {:induction false} SharesProduct(n: nat, x: real)
    ensures Shares(n, x) == x * (n as real)
  {
    if n > 0 {
      SharesProduct(n - 1, x);
      MulSucc((n - 1) as real, x);
    }
  }

  lemma MulSucc(m: real, x: real)
    ensures x * (m + 1.0) == x * m + x
  {
  }

  /** The equal share, counted once per participant, gives back the total spent. */
  lemma SharesOfShare(es: seq<Expense>, ps: seq<string>)
    requires |ps| > 0
    ensures Shares(|ps|, PerPerson(es, ps)) == Total(es)
  {
    var share := PerPerson(es, ps);
    assert share * (|ps| as real) == Total(es);
    SharesProduct(|ps|, share);
  }

  /** `addParticipant`'s new list (both splitters): the name is appended only if it is absent. */
  function WithParticipant(ps: seq<string>, name: string): (r: seq<string>)
    ensures |r| == |ps| + (if name in ps then 0 else 1)
    ensures name in r
    ensures forall p :: p in r <==> p in ps || p == name
    ensures NoDup(ps) ==> NoDup(r)
    ensures r[..|ps|] == ps
  {
    if name in ps then ps
    else
      assert NoDup(ps) ==> NoDup(ps + [name]) by {
        if NoDup(ps) {
          AppendAbsentNoDup(ps, name);
        }
      }
      ps + [name]
  }

  /** Every expense was paid by a registered participant, and nobody is registered twice. */
  ghost predicate Registered(ps: seq<string>, es: seq<Expense>) {
    NoDup(ps) && forall k :: 0 <= k < |es| ==> es[k].payer in ps
  }

  /** Any spending means at least one participant, so the share is never a division by zero. */
  lemma SpendingNeedsParticipants(ps: seq<string>, es: seq<Expense>)
    requires Registered(ps, es) && es != []
    ensures |ps| > 0
  {
    assert es[0].payer in ps;
  }

  function SumPaid(ps: seq<string>, es: seq<Expense>): real {
    if ps == [] then 0.0 else PaidBy(es, ps[0]) + SumPaid(ps[1..], es)
  }

  lemma PaidByCons(e: Expense, es: seq<Expense>, p: string)
    ensures PaidBy([e] + es, p) == (if e.payer == p then e.amount else 0.0) + PaidBy(es, p)
  {
    var byP := (x: Expense) => x.payer == p;
    assert ([e] + es)[1..] == es;
    assert Filter([e] + es, byP) == (if e.payer == p then [e] else []) + Filter(es, byP);
    if e.payer == p {
      assert ([e] + Filter(es, byP))[1..] == Filter(es, byP);
    } else {
      assert [] + Filter(es, byP) == Filter(es, byP);
    }
  }

  /** The share of one expense that lands on the participants: its amount, once. */
  function Matching(ps: seq<string>, e: Expense): real {
    if ps == [] then 0.0 else (if e.payer == ps[0] then e.amount else 0.0) + Matching(ps[1..], e)
  }

  lemma {:induction false} MatchingOnce(ps: seq<string>, e: Expense)
    requires NoDup(ps)
    ensures Matching(ps, e) == if e.payer in ps then e.amount else 0.0
  {
    if ps != [] {
      assert NoDup(ps[1..]) by {
        forall i, j | 0 <= i < j < |ps[1..]| ensures ps[1..][i] != ps[1..][j] {
          assert ps[i + 1] != ps[j + 1];
        }
      }
      MatchingOnce(ps[1..], e);
      if e.payer == ps[0] {
        forall k | 0 <= k < |ps[1..]| ensures ps[1..][k] != e.payer {
          assert ps[0] != ps[k + 1];
        }
      }
    }
  }

  lemma {:induction false} SumPaidCons(ps: seq<string>, e: Expense, es: seq<Expense>)
    ensures SumPaid(ps, [e] + es) == Matching(ps, e) + SumPaid(ps, es)
  {
    if ps != [] {
      PaidByCons(e, es, ps[0]);
      SumPaidCons(ps[1..], e, es);
    }
  }

  /** When every payer is registered exactly once, what the participants paid adds up to the total spent. */
  lemma {:induction false} PaidAddsUpToTotal(ps: seq<string>, es: seq<Expense>)
    requires Registered(ps, es)
    ensures SumPaid(ps, es) == Total(es)
  {
    if es == [] {
      assert SumPaid(ps, es) == 0.0 by {
        ZeroPaid(ps);
      }
    } else {
      assert Registered(ps, es[1..]) by {
        forall k | 0 <= k < |es[1..]| ensures es[1..][k].payer in ps {
          assert es[1..][k] == es[k + 1];
        }
      }
      PaidAddsUpToTotal(ps, es[1..]);
      assert [es[0]] + es[1..] == es;
      SumPaidCons(ps, es[0], es[1..]);
      MatchingOnce(ps, es[0]);
    }
  }

  lemma {:induction false} ZeroPaid(ps: seq<string>)
    ensures SumPaid(ps, []) == 0.0
  {
    if ps != [] {
      ZeroPaid(ps[1..]);
    }
  }
}
