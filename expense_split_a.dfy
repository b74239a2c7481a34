/** The expense splitter of src/tasks/41113/1a.jsx: participants, expenses with
  * an add form, edit and delete, per-participant balances and the list filter.
  * The greedy settlement over the balances is module Settlement. */
module ExpenseSplitA {
  import opened Wrappers
  import opened Seqs
  import opened ExpenseLedger

  const Categories: seq<string> := ["Food", "Transportation", "Entertainment", "Accommodation", "Other"]

  /** The add form; a blank amount field is None. */
  datatype Draft = Draft(description: string, amount: Option<real>, payer: string, category: string)

  const BlankDraft := Draft("", None, "", "")

  /** The fields sent back by the edit form; the id is the edited expense's own. */
  datatype Edit = Edit(description: string, amount: real, payer: string, category: string)

  /** The guard of `addExpense`: description, amount, payer and category are all filled in. */
  predicate Complete(d: Draft) {
    d.description != "" && d.amount.Some? && d.payer != "" && d.category != ""
  }

  /** One participant's balance: what they paid minus the equal share. */
  function BalancesFrom(ps: seq<string>, es: seq<Expense>, share: real): (r: seq<(string, real)>)
    ensures |r| == |ps|
    ensures forall k :: 0 <= k < |ps| ==> r[k].0 == ps[k]
    ensures forall k :: 0 <= k < |ps| ==> r[k].1 == PaidBy(es, ps[k]) - share
  {
    if ps == [] then [] else [(ps[0], PaidBy(es, ps[0]) - share)] + BalancesFrom(ps[1..], es, share)
  }

  /** `balances`: one entry per participant, in participant order, holding what that
    * participant paid minus the equal share. */
  function Balances(ps: seq<string>, es: seq<Expense>): (r: seq<(string, real)>)
    ensures |r| == |ps|
    ensures forall k :: 0 <= k < |ps| ==> r[k] == (ps[k], PaidBy(es, ps[k]) - PerPerson(es, ps))
  {
    BalancesFrom(ps, es, PerPerson(es, ps))
  }

  function SumBalances(bs: seq<(string, real)>): real {
    if bs == [] then 0.0 else bs[0].1 + SumBalances(bs[1..])
  }

  lemma {:induction false} SumBalancesFrom(ps: seq<string>, es: seq<Expense>, share: real)
    ensures SumBalances(BalancesFrom(ps, es, share)) == SumPaid(ps, es) - Shares(|ps|, share)
  {
    if ps != [] {
      SumBalancesFrom(ps[1..], es, share);
      assert BalancesFrom(ps, es, share)[1..] == BalancesFrom(ps[1..], es, share);
    }
  }

  /** With at least one participant and every payer registered, the balances sum to zero. */
  lemma BalancesSumToZero(ps: seq<string>, es: seq<Expense>)
    requires Registered(ps, es) && |ps| > 0
    ensures SumBalances(Balances(ps, es)) == 0.0
  {
    var share := PerPerson(es, ps);
    assert Shares(|ps|, share) == Total(es) by {
      SharesOfShare(es, ps);
    }
    assert SumPaid(ps, es) == Total(es) by {
      PaidAddsUpToTotal(ps, es);
    }
    SumBalancesFrom(ps, es, share);
  }

  /** `filteredExpenses`: an empty filter field lets every expense through. */
  function Filtered(es: seq<Expense>, participant: string, category: string): (r: seq<Expense>)
    ensures forall k :: 0 <= k < |r| ==>
      (r[k] in es && (participant == "" || r[k].payer == participant) && (category == "" || r[k].category == category))
    ensures forall k :: (0 <= k < |es| &&
      (participant == "" || es[k].payer == participant) && (category == "" || es[k].category == category)) ==> es[k] in r
  {
    Filter(es, (e: Expense) => (participant == "" || e.payer == participant) && (category == "" || e.category == category))
  }

  /** With both filter fields empty the list is shown unchanged. */
  lemma NoFilterShowsAll(es: seq<Expense>)
    ensures Filtered(es, "", "") == es
  {
    FilterKeepsAll(es, (e: Expense) => ("" == "" || e.payer == "") && ("" == "" || e.category == ""));
  }

  /** `updateExpense`: the fields of every expense with that id are replaced, its id kept. */
  function Updated(es: seq<Expense>, id: int, edit: Edit): (r: seq<Expense>)
    ensures |r| == |es|
    ensures forall k :: 0 <= k < |es| && es[k].id != id ==> r[k] == es[k]
    ensures forall k :: 0 <= k < |es| && es[k].id == id ==>
      r[k] == Expense(id, edit.description, edit.amount, edit.payer, edit.category)
  {
    seq(|es|, k requires 0 <= k < |es| =>
      if es[k].id == id then Expense(id, edit.description, edit.amount, edit.payer, edit.category) else es[k])
  }

  class App {
    var participants: seq<string>
    var expenses: seq<Expense>
    var draft: Draft
    var filterParticipant: string
    var filterCategory: string

    ghost predicate Valid()
      reads this
    {
      Registered(participants, expenses)
    }

    constructor()
      ensures Valid()
      ensures participants == [] && expenses == [] && draft == BlankDraft
      ensures filterParticipant == "" && filterCategory == ""
    {
      participants := [];
      expenses := [];
      draft := BlankDraft;
      filterParticipant := "";
      filterCategory := "";
    }

    /** `addParticipant` (lines 46-50). */
    method AddParticipant(name: string)
      requires Valid()
      modifies this`participants
      ensures Valid()
      ensures participants == WithParticipant(old(participants), name)
    {
      participants := WithParticipant(participants, name);
    }

    /** `addExpense` (lines 52-63); `now` is Date.now(). */
    method AddExpense(now: int)
      requires Valid()
      modifies this`expenses, this`participants, this`draft
      ensures Valid()
      ensures Complete(old(draft)) ==>
        expenses == old(expenses) + [Expense(now, old(draft).description, old(draft).amount.value, old(draft).payer, old(draft).category)] &&
        participants == WithParticipant(old(participants), old(draft).payer) &&
        draft == BlankDraft
      ensures !Complete(old(draft)) ==>
        expenses == old(expenses) && participants == old(participants) && draft == old(draft)
    {
      if Complete(draft) {
        var e := Expense(now, draft.description, draft.amount.value, draft.payer, draft.category);
        participants := WithParticipant(participants, draft.payer);
        expenses := expenses + [e];
        draft := BlankDraft;
      }
    }

    /** `deleteExpense` (lines 65-67). */
    method DeleteExpense(id: int)
      requires Valid()
      modifies this`expenses
      ensures Valid()
      ensures expenses == Filter(old(expenses), (e: Expense) => e.id != id)
    {
      expenses := Filter(expenses, (e: Expense) => e.id != id);
    }

    /** `updateExpense` (lines 69-75); the edit form's payer list holds only participants. */
    method UpdateExpense(id: int, edit: Edit)
      requires Valid() && edit.payer in participants
      modifies this`expenses
      ensures Valid()
      ensures expenses == Updated(old(expenses), id, edit)
    {
      expenses := Updated(expenses, id, edit);
    }

    /** `balances` (lines 77-89) over the current state. */
    function CurrentBalances(): (r: seq<(string, real)>)
      reads this
      requires Valid()
      ensures |r| == |participants|
      ensures forall k :: 0 <= k < |participants| ==>
        r[k] == (participants[k], PaidBy(expenses, participants[k]) - PerPerson(expenses, participants))
      ensures |participants| > 0 ==> SumBalances(r) == 0.0
    {
      if |participants| > 0 then BalancesSumToZero(participants, expenses); Balances(participants, expenses)
      else Balances(participants, expenses)
    }
  }
}
