/** The second expense splitter, src/tasks/41113/1b.jsx: participants, expenses
  * added and removed by a form, and a per-participant "owes" figure shown as
  * "owes" or "gets back". The budget field only feeds the display and is not modelled. */
module ExpenseSplitB {
  import opened Wrappers
  import opened Seqs
  import opened ExpenseLedger

  /** `CATEGORIES[0]`, the category the form starts and resets with. */
  const FirstCategory: string := "Food"

  /** The add form; a blank amount field is None. */
  datatype Draft = Draft(description: string, amount: Option<real>, payer: string, category: string)

  const BlankDraft := Draft("", None, "", FirstCategory)

  /** The guard of `addExpense`: only the amount and the payer must be filled in. */
  predicate Ready(d: Draft) {
    d.amount.Some? && d.payer != ""
  }

  datatype Settlement = Settlement(name: string, owes: real)

  /** `settlements`: one entry per participant, in participant order, owing the share minus what they paid. */
  function Settlements(ps: seq<string>, es: seq<Expense>): (r: seq<Settlement>)
    ensures |r| == |ps|
    ensures forall k :: 0 <= k < |ps| ==> r[k].name == ps[k]
  {
    SettlementsFrom(ps, es, PerPerson(es, ps))
  }

  function SettlementsFrom(ps: seq<string>, es: seq<Expense>, share: real): (r: seq<Settlement>)
    ensures |r| == |ps|
    ensures forall k :: 0 <= k < |ps| ==> r[k].name == ps[k]
  {
    if ps == [] then [] else [Settlement(ps[0], share - PaidBy(es, ps[0]))] + SettlementsFrom(ps[1..], es, share)
  }

  function SumOwes(ss: seq<Settlement>): real {
    if ss == [] then 0.0 else ss[0].owes + SumOwes(ss[1..])
  }

  /** What each entry owes: the equal share minus what that participant paid. */
  lemma {:induction false} SettlementOwes(ps: seq<string>, es: seq<Expense>, k: int)
    requires 0 <= k < |ps|
    ensures Settlements(ps, es)[k].owes == PerPerson(es, ps) - PaidBy(es, ps[k])
  {
    SettlementsFromOwes(ps, es, PerPerson(es, ps), k);
  }

  lemma {:induction false} SettlementsFromOwes(ps: seq<string>, es: seq<Expense>, share: real, k: int)
    requires 0 <= k < |ps|
    ensures SettlementsFrom(ps, es, share)[k].owes == share - PaidBy(es, ps[k])
  {
    if k > 0 {
      SettlementsFromOwes(ps[1..], es, share, k - 1);
      assert SettlementsFrom(ps, es, share)[k] == SettlementsFrom(ps[1..], es, share)[k - 1];
      assert ps[1..][k - 1] == ps[k];
    }
  }

  lemma {:induction false} SumOwesFrom(ps: seq<string>, es: seq<Expense>, share: real)
    ensures SumOwes(SettlementsFrom(ps, es, share)) == Shares(|ps|, share) - SumPaid(ps, es)
  {
    if ps != [] {
      SumOwesFrom(ps[1..], es, share);
      assert SettlementsFrom(ps, es, share)[1..] == SettlementsFrom(ps[1..], es, share);
    }
  }

  /** When every payer is a registered participant, the amounts owed sum to zero. */
  lemma SettlementsSumToZero(ps: seq<string>, es: seq<Expense>)
    requires Registered(ps, es)
    ensures SumOwes(Settlements(ps, es)) == 0.0
  {
    if ps == [] {
      if es != [] {
        SpendingNeedsParticipants(ps, es);
      }
    } else {
      var share := PerPerson(es, ps);
      assert Shares(|ps|, share) == Total(es) by {
        SharesOfShare(es, ps);
      }
      assert SumPaid(ps, es) == Total(es) by {
        PaidAddsUpToTotal(ps, es);
      }
      SumOwesFrom(ps, es, share);
    }
  }

  /** One line of `SettlementSummary`. */
  datatype Verdict = Owes(who: string, amount: real) | GetsBack(who: string, amount: real)

  /** "owes" exactly when the figure is positive, "gets back" otherwise (zero included), always with its absolute value. */
  function SummaryLine(s: Settlement): (v: Verdict)
    ensures v.who == s.name
    ensures v.Owes? <==> s.owes > 0.0
    ensures v.amount >= 0.0
    ensures v.Owes? ==> s.owes == v.amount
    ensures v.GetsBack? ==> s.owes == -v.amount
  {
    if s.owes > 0.0 then Owes(s.name, s.owes) else GetsBack(s.name, -s.owes)
  }

  class App {
    var participants: seq<string>
    var expenses: seq<Expense>
    var draft: Draft

    ghost predicate Valid()
      reads this
    {
      Registered(participants, expenses)
    }

    constructor()
      ensures Valid()
      ensures participants == [] && expenses == [] && draft == BlankDraft
    {
      participants := [];
      expenses := [];
      draft := BlankDraft;
    }

    /** `addParticipant` (lines 35-37). */
    method AddParticipant(name: string)
      requires Valid()
      modifies this`participants
      ensures Valid()
      ensures participants == WithParticipant(old(participants), name)
    {
      participants := WithParticipant(participants, name);
    }

    /** `addExpense` (lines 39-51); `now` is Date.now(). */
    method AddExpense(now: int)
      requires Valid()
      modifies this`expenses, this`participants, this`draft
      ensures Valid()
      ensures Ready(old(draft)) ==>
        expenses == old(expenses) + [Expense(now, old(draft).description, old(draft).amount.value, old(draft).payer, old(draft).category)] &&
        participants == WithParticipant(old(participants), old(draft).payer) &&
        draft == BlankDraft
      ensures !Ready(old(draft)) ==>
        expenses == old(expenses) && participants == old(participants) && draft == old(draft)
    {
      if Ready(draft) {
        expenses := expenses + [Expense(now, draft.description, draft.amount.value, draft.payer, draft.category)];
        participants := WithParticipant(participants, draft.payer);
        draft := BlankDraft;
      }
    }

    /** `removeExpense` (lines 53-54). */
    method RemoveExpense(id: int)
      requires Valid()
      modifies this`expenses
      ensures Valid()
      ensures expenses == Filter(old(expenses), (e: Expense) => e.id != id)
    {
      expenses := Filter(expenses, (e: Expense) => e.id != id);
    }

    /** The summary over the current state; the figures sum to zero. */
    function CurrentSettlements(): (r: seq<Settlement>)
      reads this
      requires Valid()
      ensures |r| == |participants|
      ensures SumOwes(r) == 0.0
    {
      SettlementsSumToZero(participants, expenses);
      Settlements(participants, expenses)
    }
  }
}
