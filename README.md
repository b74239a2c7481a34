# react-tasks, modelled in Dafny

The repository holds independent single-page React demos. Each mixes rendering with a
little real logic in its event handlers. This project models that logic, demo by demo,
and proves what the demos promise about it.

- **Expense splitting** (`src/tasks/41113`): participants, expenses, per-person
  balances, and the greedy two-pointer settlement loop. The loop runs in place on an
  array of integer-cent balances. It ends with at most n−1 transfers. With zero-sum
  balances every transfer is positive and everyone ends settled.
- **Password tools** (`src/tasks/41145`, three variants): strength scores and levels,
  criteria lists, generators (random numbers are parameters), "suggest stronger",
  history and masking.
- **Forum feed** (`src/tasks/0000/test.jsx`): votes, bookmarks, comments, the three
  sorts, new posts and the search.
- **Unit converters** (`src/tasks/41073`, three variants): factor tables and temperature
  formulas, checked against one reference conversion through degrees Celsius.
- **Discount calculators** (`src/tasks/41121`, two variants): discount and tax
  arithmetic, input validation, capped history, comparison, savings goal and bulk
  totals.
- **Fitness trackers** (`src/tasks/41302`, two variants): the streak loop, monthly
  summaries, personal bests and goals.
- **Diaries** (`src/tasks/41374`, two variants): login, entries, search, mood tally,
  tags and the daily prompt.
- **Icon generators** (`src/tasks/41085`, two variants): hex colours, the black-or-white
  text rule, palettes, text placement and the preview grid.

Each React component with state is a `class`. Each handler is one method: one atomic
transition whose `ensures` gives the whole new state. Pure helpers are functions. Loops
in the source are methods with loop invariants: the settlement loop, the streak loop,
the mood tally and the character-by-character generators. Each method is proved
against a specification function, and the laws are lemmas about those functions.

A parsed number is an `Option<real>`: `None` stands for NaN or a blank field. Money and
measurements are exact `real`s. Settlement balances are whole cents. Dates are day
numbers or millisecond timestamps. `Math.random()` draws and the clock are parameters. Hex colours
are read as section 5.2 of CSS Color Module Level 4 reads them: `#rgb`, `#rgba`,
`#rrggbb` and `#rrggbbaa`.

Where a demo's code does something its authors evidently did not intend, the model
keeps the code as written. A lemma shows the discrepancy on a concrete input, and a
corrected definition carries the intended property (see "## Findings"). The component
models use the corrected definitions, with one exception: `IconsB.App.Grid` keeps the
as-written slider values, because what it shows is the point of that finding.

## Model

| member | source | states |
|---|---|---|
| Wrappers.Option.OrElse | src/tasks/41121/1ideal.jsx:108 | `parseFloat(x) \|\| 0`: the parsed number, or the fallback for NaN |
| Seqs.Filter | src/tasks/41113/1a.jsx:64-66 | `Array.prototype.filter`: no longer than the list, only elements that pass, and every element that passes is kept |
| Seqs.FilterConcat | src/tasks/41374/1b.jsx:86-96 | filtering a concatenation filters each part, keeping the relative order |
| Seqs.FilterKeepsAll | src/tasks/41374/1b.jsx:86-96 | a filter every element passes changes nothing |
| Seqs.FilterPartition | src/tasks/41374/1b.jsx:86-96 | a filter and its negation split the list between them |
| Seqs.RemoveAt | src/tasks/41073/1ideal.jsx:144-147 | `filter((_, i) => i !== index)`: exactly the element at the index goes and the rest keep their order; an index outside the list removes nothing |
| Seqs.AppendAbsentNoDup | src/tasks/41073/1a.jsx:72-81 | appending an absent element keeps a list duplicate-free |
| Seqs.RemoveAtNoDup | src/tasks/41073/1a.jsx:181 | removing an element keeps a list duplicate-free |
| Seqs.SumOfUpdate | src/tasks/41113/1a.jsx:77-79 | replacing one term changes the `reduce` sum by the difference |
| Seqs.SumOfLast | src/tasks/41113/1a.jsx:77-79 | the sum is the sum of all but the last term plus the last |
| Seqs.SumOfPositive | src/tasks/41113/1a.jsx:77-79 | positive terms have a positive sum |
| Seqs.SumOfNonPositive | src/tasks/41113/1a.jsx:83-88 | non-positive terms sum to zero only when every term is zero |
| Seqs.SumOfPointwise | src/tasks/41113/1a.jsx:83-88 | lists that agree term by term have the same sum |
| Text.LowerChar | src/tasks/41145/1ideal.jsx:215 | `toLowerCase` on one character, for ASCII: the letters A to Z become a to z, everything else stays |
| Text.Lower | src/tasks/41145/1ideal.jsx:215 | `toLowerCase` for ASCII: every character is mapped by `LowerChar` and the length is kept |
| Text.LowerIdempotent | src/tasks/41145/1ideal.jsx:215 | lower-casing twice is lower-casing once |
| Text.ContainsEmpty | src/tasks/0000/test.jsx:412-419 | every string contains the empty string |
| Text.ContainsIn | src/tasks/41374/1b.jsx:90 | a string contains any piece of it |
| Text.TrimStart | src/tasks/0000/test.jsx:297 | drops exactly the leading ECMAScript white space and line terminators |
| Text.TrimEnd | src/tasks/0000/test.jsx:297 | drops exactly the trailing ECMAScript white space and line terminators |
| Text.Trim | src/tasks/0000/test.jsx:297 | the piece of the string left when exactly the whitespace before and after it is cut off; it neither starts nor ends with whitespace |
| Text.Split | src/tasks/0000/test.jsx:297 | at least one piece, none holding the separator, and joining them gives the string back |
| Text.SplitJoin | src/tasks/0000/test.jsx:297 | splitting joined separator-free pieces gives the pieces back |
| Text.SplitNoSeparator | src/tasks/0000/test.jsx:297 | a string without the separator is one piece |
| Text.SplitPrefix | src/tasks/0000/test.jsx:297 | a separator-free piece before the separator is the first piece |
| Text.Repeat | src/tasks/41145/1ideal.jsx:219 | `repeat`: n copies of the character |
| ExpenseLedger.PerPerson | src/tasks/41113/1a.jsx:77-81 | the share times the number of participants is the total spent; with no participants it is 0, which is the `\|\| 0` fallback for a total of 0, and a non-zero total cannot occur then (SpendingNeedsParticipants) |
| ExpenseLedger.SharesOfShare | src/tasks/41113/1a.jsx:81 | adding the equal share once per participant gives back the total spent |
| ExpenseLedger.WithParticipant | src/tasks/41113/1a.jsx:46-50 | the name is appended only when absent; the old list is a prefix, the name is present afterwards, nothing else is added, and a duplicate-free list stays duplicate-free |
| ExpenseLedger.SpendingNeedsParticipants | src/tasks/41113/1a.jsx:59-60 | once any expense is recorded with a registered payer, there is at least one participant, so the share is not a division by zero |
| ExpenseLedger.PaidAddsUpToTotal | src/tasks/41113/1a.jsx:77-89 | when every payer is registered exactly once, what the participants paid adds up to the total spent |
| ExpenseSplitA.BalancesFrom | src/tasks/41113/1a.jsx:83-89 | one balance per participant, in participant order, each labelled with that participant and equal to what they paid minus the share |
| ExpenseSplitA.Balances | src/tasks/41113/1a.jsx:83-89 | `balances` has exactly one entry per participant, in order, and each is what that participant paid minus the equal share |
| ExpenseSplitA.SumBalancesFrom | src/tasks/41113/1a.jsx:83-89 | the balances sum to what the participants paid minus one share per participant |
| ExpenseSplitA.BalancesSumToZero | src/tasks/41113/1a.jsx:77-89 | with at least one participant and every payer registered, the balances sum to zero |
| ExpenseSplitA.Filtered | src/tasks/41113/1a.jsx:114-118 | an expense is shown iff (no participant filter or its payer matches) and (no category filter or its category matches) |
| ExpenseSplitA.NoFilterShowsAll | src/tasks/41113/1a.jsx:114-118 | with both filter fields empty the list is shown unchanged, in order |
| ExpenseSplitA.Updated | src/tasks/41113/1a.jsx:69-75 | same length; expenses with another id are unchanged; an expense with the id takes the edited fields and keeps its id |
| ExpenseSplitA.App.constructor | src/tasks/41113/1a.jsx:35-43 | no participants, no expenses, a blank form and empty filters |
| ExpenseSplitA.App.AddParticipant | src/tasks/41113/1a.jsx:46-50 | the participant list becomes `WithParticipant` of the old one, keeping it duplicate-free |
| ExpenseSplitA.App.AddExpense | src/tasks/41113/1a.jsx:52-63 | when description, amount, payer and category are all filled, exactly one expense (id = the clock) is appended, the payer is registered and the form reset; otherwise nothing changes |
| ExpenseSplitA.App.DeleteExpense | src/tasks/41113/1a.jsx:65-67 | exactly the expenses with that id are removed, the others kept in order |
| ExpenseSplitA.App.UpdateExpense | src/tasks/41113/1a.jsx:69-75 | only the expense(s) with the matching id change |
| ExpenseSplitA.App.CurrentBalances | src/tasks/41113/1a.jsx:77-89 | one balance per participant, each what that participant paid minus the equal share, and they sum to zero when there is a participant |
| Settlement.Debt | src/tasks/41113/1a.jsx:101 | `Math.min(-b[i], b[j])`: at most what the debtor owes and at most what the creditor is due, and equal to one of them |
| Settlement.Pay | src/tasks/41113/1a.jsx:107-108 | paying keeps the number of balances |
| Settlement.PayStep | src/tasks/41113/1a.jsx:101-108 | one payment keeps every working balance equal to its original plus the net of the transfers, and leaves the sum of the working balances unchanged |
| Settlement.SettlePay | src/tasks/41113/1a.jsx:101-109 | with zero-sum sorted balances each payment is positive, and afterwards either the creditor is at zero (and j moves) or the debtor is |
| Settlement.SettleEnd | src/tasks/41113/1a.jsx:96 | when the pointers meet, every balance is zero |
| Settlement.PayInPlace | src/tasks/41113/1a.jsx:107-108 | the array afterwards is `Pay` of the array before: i raised and j lowered by the debt |
| Settlement.LoopSkip | src/tasks/41113/1a.jsx:97-99 | skipping a settled debtor keeps the loop invariant |
| Settlement.LoopPay | src/tasks/41113/1a.jsx:101-109 | one payment followed by `j--` when the creditor reaches zero keeps the loop invariant (count bound, sum, linkage, settlement) |
| Settlement.LoopEnd | src/tasks/41113/1a.jsx:96-111 | at exit: at most n−1 transfers, each between two different participants, balance sum unchanged, and for zero-sum input every amount positive and every balance settled |
| Settlement.SettleSorted | src/tasks/41113/1a.jsx:94-111 | the two-pointer loop run in place on an array terminates with at most n−1 transfers between distinct participants, preserves the sum, and for zero-sum balances pays positive amounts and settles everyone |
| Settlement.Settle | src/tasks/41113/1a.jsx:91-112 | sorts the balances and settles them: no balances give no transfers, at most n−1 transfers, endpoints are participants and differ, the total is preserved, and zero-sum balances end all at zero with positive amounts; the caller's balances are a value and stay untouched |
| ExpenseSplitB.Settlements | src/tasks/41113/1b.jsx:63-68 | one entry per participant, in participant order, named after that participant |
| ExpenseSplitB.SettlementOwes | src/tasks/41113/1b.jsx:63-68 | each entry owes the equal share minus what that participant paid |
| ExpenseSplitB.SumOwesFrom | src/tasks/41113/1b.jsx:63-68 | the amounts owed sum to one share per participant minus what the participants paid |
| ExpenseSplitB.SettlementsSumToZero | src/tasks/41113/1b.jsx:56-68 | when every payer is a registered participant, the amounts owed sum to zero |
| ExpenseSplitB.SummaryLine | src/tasks/41113/1b.jsx:190-197 | "owes" exactly when the figure is positive and "gets back" otherwise (zero included), always showing the absolute value, for the same person |
| ExpenseSplitB.App.constructor | src/tasks/41113/1b.jsx:25-33 | no participants, no expenses, a blank form whose category is the first category |
| ExpenseSplitB.App.AddParticipant | src/tasks/41113/1b.jsx:35-37 | the list becomes `WithParticipant` of the old one and stays duplicate-free |
| ExpenseSplitB.App.AddExpense | src/tasks/41113/1b.jsx:39-51 | when amount and payer are filled, exactly one expense is appended, the payer registered and the form reset with the first category; otherwise nothing changes |
| ExpenseSplitB.App.RemoveExpense | src/tasks/41113/1b.jsx:53-54 | exactly the expenses with that id are removed, order kept |
| ExpenseSplitB.App.CurrentSettlements | src/tasks/41113/1b.jsx:56-68 | one entry per participant and the amounts sum to zero |
| Settlement.SettleStart | src/tasks/41113/1a.jsx:94-95 | with sorted zero-sum balances the pointers start at the two ends with the invariant holding |
| Settlement.SettleSkip | src/tasks/41113/1a.jsx:97-99 | skipping a debtor at zero keeps the settling invariant |
| Settlement.LoopStart | src/tasks/41113/1a.jsx:94-95 | the loop invariant holds before the first iteration, with no transfers |
| Settlement.LoopStep | src/tasks/41113/1a.jsx:97-109 | one iteration on the array keeps the loop invariant and shrinks the window or settles the debtor |
| Settlement.PayDebt | src/tasks/41113/1a.jsx:102-109 | one payment of the smaller amount from debtor i to creditor j keeps the loop invariant; j moves down when the creditor is settled, otherwise the debtor is settled |
| Sorting.SortBy | src/tasks/41113/1a.jsx:93 | the result is sorted by the key, has the same length and is a permutation of the input (multiset equality) |
| Sorting.Insert | src/tasks/41113/1a.jsx:93 | inserting into a sorted list keeps it sorted and adds exactly that element |
| Sorting.SortStable | src/tasks/41113/1a.jsx:93 | the sort is stable: the elements sharing any key come out in their input order |
| Sorting.InsertStable | src/tasks/41113/1a.jsx:93 | an inserted element goes ahead of the elements with its key and changes the order of none of them |
| Sorting.SortSortedIsIdentity | src/tasks/0000/test.jsx:381-392 | sorting a list that is already in order leaves it exactly as it is |
| Sorting.SortSum | src/tasks/41113/1a.jsx:93 | sorting does not change the sum of any quantity over the list |
| Sorting.SortInjective | src/tasks/41113/1a.jsx:93 | sorting keeps distinct labels distinct |
| PasswordCommon.LowercaseCharsExactly | src/tasks/41145/1ideal.jsx:96 | a character is in the lower-case set iff it matches `[a-z]` |
| PasswordCommon.UppercaseCharsExactly | src/tasks/41145/1ideal.jsx:97 | a character is in the upper-case set iff it matches `[A-Z]` |
| PasswordCommon.NumberCharsExactly | src/tasks/41145/1ideal.jsx:98 | a character is in the digit set iff it matches `\d` |
| PasswordCommon.Pick | src/tasks/41145/1ideal.jsx:109 | `Math.floor(r * n)` is an index below n, or 0 when n is 0 |
| PasswordCommon.CharAt | src/tasks/41145/1a.jsx:72-74 | one character of a non-empty pool; "" on the empty pool |
| PasswordCommon.Drawn | src/tasks/41145/1a.jsx:72-74 | one character per draw, each from the pool; nothing from an empty pool |
| PasswordCommon.DrawLoop | src/tasks/41145/1a.jsx:72-74 | the loop yields `length` characters of a non-empty pool (none for a negative length), each from the pool, and "" for an empty pool |
| PasswordIdeal.Strength | src/tasks/41145/1ideal.jsx:186 | the strength never exceeds 4 |
| PasswordIdeal.Score | src/tasks/41145/1ideal.jsx:178-185 | at most six criteria are met, and at most four while the password is shorter than the minimum |
| PasswordIdeal.CalculateStrength | src/tasks/41145/1ideal.jsx:178-187 | the counting loop returns `Strength`, a valid index into the five levels |
| PasswordIdeal.StrengthIsAnIndex | src/tasks/41145/1ideal.jsx:178-187 | strength = floor(2·score/3) with score ≤ 6, so the cap is never reached, the strength indexes `strengthLevels` and the bar value lies in 20..100 |
| PasswordIdeal.StrengthExtremes | src/tasks/41145/1ideal.jsx:178-187 | a long password with every required class is "Very Strong"; the empty password under a positive minimum is "Very Weak" |
| PasswordIdeal.ActiveCriteria | src/tasks/41145/1ideal.jsx:72-80 | the minimum length is always listed first and only there; each class criterion is listed iff the policy requires it |
| PasswordIdeal.AllTicksIffCompliant | src/tasks/41145/1ideal.jsx:72-92 | every listed criterion is ticked iff the password is long enough and holds every required class |
| PasswordIdeal.CharsetExactly | src/tasks/41145/1ideal.jsx:101-105 | a character is in the charset iff it belongs to an enabled class |
| PasswordIdeal.Draw | src/tasks/41145/1ideal.jsx:109 | one character of a non-empty charset; on an empty charset the text "undefined" |
| PasswordIdeal.Fill | src/tasks/41145/1ideal.jsx:107-110 | one charset character per draw; nine characters per draw when the charset is empty |
| PasswordIdeal.Overwrite | src/tasks/41145/1ideal.jsx:124-127 | slice-and-concatenate replaces exactly one character in place |
| PasswordIdeal.FixLower | src/tasks/41145/1ideal.jsx:112-116 | the fix-up keeps the length |
| PasswordIdeal.FixUpper | src/tasks/41145/1ideal.jsx:117-121 | the fix-up keeps the length |
| PasswordIdeal.FixNumber | src/tasks/41145/1ideal.jsx:122-128 | the fix-up keeps the length |
| PasswordIdeal.FixSpecial | src/tasks/41145/1ideal.jsx:129-135 | the fix-up keeps the length |
| PasswordIdeal.FixUps | src/tasks/41145/1ideal.jsx:112-135 | the four fix-ups together keep the length |
| PasswordIdeal.FillPassword | src/tasks/41145/1ideal.jsx:107-110 | the loop computes `Fill` |
| PasswordIdeal.GeneratePassword | src/tasks/41145/1ideal.jsx:95-138 | the method computes the as-written generator `Generated` |
| PasswordIdeal.ApplyFixUps | src/tasks/41145/1ideal.jsx:112-135 | the four `if` statements compute `FixUps` |
| PasswordIdeal.EnsureLower | src/tasks/41145/1ideal.jsx:112-116 | the first `if` computes `FixLower`: the first character is replaced only when a lower-case letter is required and missing |
| PasswordIdeal.EnsureUpper | src/tasks/41145/1ideal.jsx:117-121 | the second `if` computes `FixUpper`: the last character is replaced only when an upper-case letter is required and missing |
| PasswordIdeal.EnsureNumber | src/tasks/41145/1ideal.jsx:122-128 | the third `if` computes `FixNumber`: a character at position 1 to length - 1 is replaced only when a digit is required and missing |
| PasswordIdeal.EnsureSpecial | src/tasks/41145/1ideal.jsx:129-135 | the fourth `if` computes `FixSpecial`: a character at position 1 to length - 2 is replaced only when a special character is required and missing |
| PasswordIdeal.GeneratedShape | src/tasks/41145/1ideal.jsx:101-137 | with a class enabled the password has exactly minLength characters, all from the enabled classes; with none it is "undefined" repeated; a required special character is always present |
| PasswordIdeal.MissDrawsFill | src/tasks/41145/1ideal.jsx:107-110 | the example draws fill "1111111a" under the default policy |
| PasswordIdeal.MissDrawsFixUps | src/tasks/41145/1ideal.jsx:112-135 | the fix-ups turn "1111111a" into "1!11111A" |
| PasswordIdeal.GeneratedCanMissLowercase | src/tasks/41145/1ideal.jsx:112-121 | the upper-case fix-up can overwrite the only lower-case letter: the generated "1!11111A" fails the default policy |
| PasswordIdeal.GenerateCompliantPassword | src/tasks/41145/1ideal.jsx:95-138 | corrected generator: the password always meets the policy, has minLength characters and draws only from the enabled classes |
| PasswordIdeal.ClassSlots | src/tasks/41145/1ideal.jsx:112-135 | one class character per slot 0..3 makes the password compliant without changing its length or leaving the charset |
| PasswordIdeal.Place | src/tasks/41145/1ideal.jsx:124-127 | writing into a slot keeps the length |
| PasswordIdeal.SuggestStrongerPassword | src/tasks/41145/1ideal.jsx:140-161 | the suggestion extends the input, meets the policy, and only adds "a", "A", "1", "!" or generator characters, up to minLength |
| PasswordIdeal.PadWithFill | src/tasks/41145/1ideal.jsx:156-158 | the padding loop extends its input up to minLength with generator characters, and no further |
| PasswordIdeal.AppendMissing | src/tasks/41145/1ideal.jsx:143-154 | at most four characters from "aA1!" are appended, after which every required class is present |
| PasswordIdeal.AppendedHas | src/tasks/41145/1ideal.jsx:143-154 | after the four appending steps every class the policy requires is present in the suggestion |
| PasswordIdeal.AppendIfMissing | src/tasks/41145/1ideal.jsx:143-145 | one step appends the character or nothing, and afterwards the class is present when required |
| PasswordIdeal.HasExtends | src/tasks/41145/1ideal.jsx:140-161 | appending never removes a character class already present |
| PasswordIdeal.Remember | src/tasks/41145/1ideal.jsx:191-193 | a non-empty password not yet listed is put first and the old list follows in order, cut to five entries in all; otherwise the list is unchanged; no duplicates introduced |
| PasswordIdeal.Preview | src/tasks/41145/1ideal.jsx:217-220 | same length; up to three characters are shown unchanged; beyond that the first three are kept and the rest are '*' |
| PasswordIdeal.PreviewIdempotent | src/tasks/41145/1ideal.jsx:217-220 | masking a preview again changes nothing |
| PasswordIdeal.CommonIgnoresCase | src/tasks/41145/1ideal.jsx:215 | the check gives the same answer for a password and its lower-case form, and flags every listed password |
| PasswordIdeal.IsCommonPassword | src/tasks/41145/1ideal.jsx:215 | only a password of 4 to 10 characters, as long as the listed ones, can be flagged |
| PasswordIdeal.Checker.constructor | src/tasks/41145/1ideal.jsx:164-175 | empty password, strength 0, empty history, the default policy |
| PasswordIdeal.Checker.Refresh | src/tasks/41145/1ideal.jsx:177-194 | the effect sets the strength of the current password and updates the history by `Remember` |
| PasswordIdeal.Checker.SetPassword | src/tasks/41145/1ideal.jsx:211-213 | the new password is stored and remembered |
| PasswordIdeal.Checker.SetPolicy | src/tasks/41145/1ideal.jsx:169-194 | the new policy is stored and the effect re-runs |
| PasswordIdeal.Checker.Generate | src/tasks/41145/1ideal.jsx:196-198 | the password becomes the corrected generator's result for the draws, which meets the policy; the policy is unchanged and the history gains it as the effect does |
| PasswordIdeal.Checker.Suggest | src/tasks/41145/1ideal.jsx:207-209 | the password becomes `suggestStrongerPassword` of the old one, which meets the policy and extends the old password; the policy is unchanged and the history gains it as the effect does |
| PasswordA.RawScore | src/tasks/41145/1a.jsx:37-43 | one point per criterion met and switched on: at most 5 |
| PasswordA.Evaluate | src/tasks/41145/1a.jsx:37-53 | the stored score is a multiple of 20 in 0..100 and the level is the chain's level for score/20 |
| PasswordA.LevelMatchesTable | src/tasks/41145/1a.jsx:45-50 | the `if`/`else if` chain gives 0→Very Weak, 1–2→Weak, 3→Moderate, 4→Strong, 5→Very Strong |
| PasswordA.LevelOf | src/tasks/41145/1a.jsx:45-50 | "Very Weak" exactly for a score of 0 and "Very Strong" exactly from 5 up |
| PasswordA.LevelMonotone | src/tasks/41145/1a.jsx:45-50 | more criteria never give a lower level |
| PasswordA.VeryStrongIffAllMet | src/tasks/41145/1a.jsx:37-50 | "Very Strong" iff the password is long enough, all four switches are on and every class is present |
| PasswordA.SuggestIffOneOrTwo | src/tasks/41145/1a.jsx:102-106 | the suggest button appears exactly when one or two criteria are met (level "Weak") |
| PasswordA.Criteria | src/tasks/41145/1a.jsx:171-186 | five entries; minimum length is checked regardless of switches; each class is ticked exactly when its switch is on and the password holds a character of that class |
| PasswordA.TicksAreScore | src/tasks/41145/1a.jsx:171-186 | the list's ticks count the meter's score |
| PasswordA.Pool | src/tasks/41145/1a.jsx:67-71 | the pool is empty iff every switch is off |
| PasswordA.GeneratePassword | src/tasks/41145/1a.jsx:66-76 | `policy.length` characters from a non-empty pool (none for a negative length), "" for an empty pool, each from the pool |
| PasswordA.HistoryEntry | src/tasks/41145/1a.jsx:77 | the first three characters (fewer if shorter) followed by "****" |
| PasswordA.EntryHidesTheRest | src/tasks/41145/1a.jsx:77 | two passwords sharing their first three characters leave the same entry |
| PasswordA.CommonIsCaseSensitive | src/tasks/41145/1a.jsx:107 | "password" is flagged and "Password" is not: membership is exact |
| PasswordA.IsCommon | src/tasks/41145/1a.jsx:107 | a flagged password holds no upper-case letter, since membership is exact |
| PasswordA.App.constructor | src/tasks/41145/1a.jsx:23-33 | empty password, default policy, empty history, "Very Weak" at 0 |
| PasswordA.App.SetPassword | src/tasks/41145/1a.jsx:55-57 | the typed password is stored and the strength re-evaluated |
| PasswordA.App.SetPolicy | src/tasks/41145/1a.jsx:218-246 | the new policy is stored and the strength re-evaluated |
| PasswordA.App.Generate | src/tasks/41145/1a.jsx:59-78 | a password of the policy's length from the pool, and exactly one masked entry appended to the history |
| PasswordB.UpdateCriteria | src/tasks/41145/1b.jsx:85-87 | only the named key changes, to the given value |
| PasswordB.UpdateTwice | src/tasks/41145/1b.jsx:85-87 | writing the same key twice keeps only the second value |
| PasswordB.GeneratorSpecialsNotAllCounted | src/tasks/41145/1b.jsx:41-66 | the generator draws '~' and '`', which the special-character test does not accept |
| PasswordB.Score | src/tasks/41145/1b.jsx:34-44 | one point per criterion met and switched on: at most 5 |
| PasswordB.StrengthOf | src/tasks/41145/1b.jsx:45 | `(score / 5) * 100` is a multiple of 20 in 0..100 |
| PasswordB.LabelMonotone | src/tasks/41145/1b.jsx:153-159 | the label never drops as the strength rises |
| PasswordB.LabelOf | src/tasks/41145/1b.jsx:153-159 | "Very Weak" exactly below 20 and "Very Strong" exactly from 80 up |
| PasswordB.LabelOfScore | src/tasks/41145/1b.jsx:153-159 | the label is the score's rank, with four and five criteria both "Very Strong" |
| PasswordB.MetCriteria | src/tasks/41145/1b.jsx:46-52 | each entry records whether its test passes, whatever the class checkboxes say |
| PasswordB.MetIgnoresClassSwitches | src/tasks/41145/1b.jsx:36-52 | unticking a class leaves `metCriteria` unchanged and never raises the score |
| PasswordB.CommonIgnoresCase | src/tasks/41145/1b.jsx:55-59 | the check gives the same answer for a password and its lower-case form; "PassWord" is flagged |
| PasswordB.PoolInKeyOrder | src/tasks/41145/1b.jsx:69-72 | the pool is "undefined" (for the truthy `length` key) then upper, lower, digits and specials for the truthy keys, in key order |
| PasswordB.PoolOf | src/tasks/41145/1b.jsx:69-72 | the pool is non-empty exactly when some visited key is truthy |
| PasswordB.PoolStartsWithUndefined | src/tasks/41145/1b.jsx:70-72 | with `length` truthy the pool starts with the text "undefined" |
| PasswordB.EmptyPool | src/tasks/41145/1b.jsx:70-72 | the pool is empty iff every key is falsy |
| PasswordB.BuildPool | src/tasks/41145/1b.jsx:69-72 | the `for … in` loop builds `PoolOf` the keys in declaration order |
| PasswordB.GeneratePassword | src/tasks/41145/1b.jsx:61-76 | `criteria.length` characters (a boolean length counts as 1 or 0) from a non-empty pool, "" from an empty one, each from the pool |
| PasswordB.App.constructor | src/tasks/41145/1b.jsx:15-27 | empty password, strength 0, the initial criteria, not flagged common |
| PasswordB.App.SetPassword | src/tasks/41145/1b.jsx:29-59 | the password is stored; when it differs from the old one the effect recomputes strength, met criteria and the common flag, and otherwise they stay |
| PasswordB.App.SetCriterion | src/tasks/41145/1b.jsx:85-87 | the checkbox updates only its key; the strength is not recomputed |
| PasswordB.App.Generate | src/tasks/41145/1b.jsx:61-76 | the new password has `criteria.length` characters from a non-empty pool ("" from an empty one), draws only from the pool, and its strength is recomputed when it differs from the old one |
| Forum.WithVoteAsWritten | src/tasks/0000/test.jsx:349-355 | as written: same length and ids; other posts unchanged; the matching post's `upvotes` becomes the card's net count and nothing else changes |
| Forum.VoteAsWrittenLosesDownvotes | src/tasks/0000/test.jsx:349-355 | for the first initial post (245 up, 12 down) the card shows 234 after an up-vote while the stored net count becomes 222 |
| Forum.WithVote | src/tasks/0000/test.jsx:349-355 | corrected: only the matching post changes, its stored net count equals the card's count, and its down-votes and other fields are kept |
| Forum.WithBookmark | src/tasks/0000/test.jsx:357-363 | only the matching post's bookmark flag is set; length, order, ids and every other field are unchanged |
| Forum.WithComment | src/tasks/0000/test.jsx:365-379 | exactly one comment by the user is appended to the end of the matching post's comments; nothing else changes |
| Forum.AddCommentAddsOne | src/tasks/0000/test.jsx:365-379 | with distinct ids, commenting on a listed post adds exactly one comment to the feed |
| Forum.NextVotes | src/tasks/0000/test.jsx:161-165 | an up-vote raises the card's count and a down-vote lowers it |
| Forum.VotesCancel | src/tasks/0000/test.jsx:162 | an up-vote and a down-vote cancel out in either order |
| Forum.BlankNotSubmittable | src/tasks/0000/test.jsx:172-177 | a comment made only of spaces is never submitted |
| Forum.Sorted | src/tasks/0000/test.jsx:381-392 | a permutation of the feed, ordered newest first, by non-increasing net votes, or by non-increasing comment count |
| Forum.SortedStable | src/tasks/0000/test.jsx:381-392 | posts that tie on the sort key keep their feed order |
| Forum.SortTwice | src/tasks/0000/test.jsx:381-392 | sorting an already sorted feed by the same key changes nothing |
| Numerals.DigitChar | src/tasks/0000/test.jsx:396 | the digit character of a value below 10 |
| Numerals.Decimal | src/tasks/0000/test.jsx:396 | a number's decimal text is non-empty, all digits, one digit exactly for numbers below 10 |
| Numerals.DecimalRoundTrip | src/tasks/41085/1b.jsx:57 | reading the decimal text back gives the number |
| Numerals.DecimalInjective | src/tasks/0000/test.jsx:396 | different numbers are written differently |
| Numerals.DecimalValueConcat | src/tasks/41085/1b.jsx:232 | reading two digit strings joined gives the first shifted left by the length of the second, plus the second |
| Forum.PostIdInjective | src/tasks/0000/test.jsx:396 | `post${n}` ids of different numbers differ |
| Forum.Prepend | src/tasks/0000/test.jsx:394-410 | the new post comes first with id `post<n+1>`, zero votes, no comments, not bookmarked, followed by the old feed unchanged; numbering is kept |
| Forum.PrependNumbered | src/tasks/0000/test.jsx:394-410 | a feed numbered post1..postn stays numbered when post<n+1> is put in front |
| Forum.Tags | src/tasks/0000/test.jsx:297 | one tag per comma-separated piece, each the trimmed piece |
| Forum.TagsOfJoined | src/tasks/0000/test.jsx:297 | a comma-joined list without spaces comes back as its pieces; an empty field gives one empty tag |
| Forum.Search | src/tasks/0000/test.jsx:412-419 | a post is kept iff the lower-cased term occurs in its lower-cased title, description or a tag |
| Forum.Matches | src/tasks/0000/test.jsx:412-419 | every post matches the empty search |
| Forum.EmptySearchShowsAll | src/tasks/0000/test.jsx:412-419 | the empty term keeps the whole feed in order |
| Forum.SearchIgnoresCase | src/tasks/0000/test.jsx:412-419 | a term and its lower-case form match the same posts |
| Forum.Feed.constructor | src/tasks/0000/test.jsx:346-347 | the feed starts with the initial posts and an empty search |
| Forum.Feed.Vote | src/tasks/0000/test.jsx:349-355 | the posts become `WithVote` of the old posts (corrected) |
| Forum.Feed.Bookmark | src/tasks/0000/test.jsx:357-363 | the posts become `WithBookmark` of the old posts |
| Forum.Feed.Comment | src/tasks/0000/test.jsx:365-379 | the posts become `WithComment` of the old posts, by the feed's user |
| Forum.Feed.Sort | src/tasks/0000/test.jsx:381-392 | the posts become `Sorted` by the chosen key |
| Forum.Feed.NewPost | src/tasks/0000/test.jsx:292-304 | with title and content filled, the new post is prepended with trimmed tags; otherwise nothing changes |
| Forum.Feed.SetSearch | src/tasks/0000/test.jsx:347 | the search term is replaced |
| Forum.Feed.Visible | src/tasks/0000/test.jsx:412-419 | no more posts than the feed; the whole feed when the search is empty |
| Forum.KeepsNumbering | src/tasks/0000/test.jsx:349-379 | per-id updates keep every id at its index, so the numbering survives |
| Forum.SortKeepsNumbering | src/tasks/0000/test.jsx:381-392 | sorting keeps the ids distinct and numbered |
| Forum.PostCard.constructor | src/tasks/0000/test.jsx:156-159 | the card starts from the post's net count and bookmark flag, with an empty draft |
| Forum.PostCard.Vote | src/tasks/0000/test.jsx:161-165 | the card's count moves by one and the feed stores it |
| Forum.PostCard.Bookmark | src/tasks/0000/test.jsx:167-170 | the card's flag flips and the feed stores the flipped value |
| Forum.PostCard.AddComment | src/tasks/0000/test.jsx:172-177 | a non-blank draft is added to the feed as typed and the draft empties; a blank one changes nothing |
| Measures.UnitPair.Swapped | src/tasks/41073/1ideal.jsx:127-131 | the swap button exchanges the two unit selects |
| Measures.SwapTwiceRestores | src/tasks/41073/1ideal.jsx:127-131 | swapping twice restores both selects |
| Measures.CelsiusRoundTrip | src/tasks/41073/1ideal.jsx:111-125 | reading a scale into degrees Celsius and writing it back are inverse on every scale |
| Measures.Reference | src/tasks/41073/1ideal.jsx:111-125 | the reference conversion through degrees Celsius: the result denotes the same temperature as the input |
| Measures.ReferenceLaws | src/tasks/41073/1ideal.jsx:111-125 | the reference conversion is the identity on one scale, undoes itself, and composes |
| Measures.ScaleRoundTrip | src/tasks/41073/1ideal.jsx:104-106 | multiplying by one factor and dividing by another, then back, returns the value |
| Measures.ScaleCompose | src/tasks/41073/1ideal.jsx:104-106 | going through an intermediate unit's factor equals converting directly |
| ConverterIdeal.Units | src/tasks/41073/1ideal.jsx:16-80 | the select lists exactly the units of the category's factor table |
| ConverterIdeal.FactorsPositive | src/tasks/41073/1ideal.jsx:16-43 | every factor of length, weight and volume is positive, so no conversion divides by zero |
| ConverterIdeal.ScaleOf | src/tasks/41073/1ideal.jsx:44-48 | a unit names a scale exactly when it is listed under temperature |
| ConverterIdeal.TemperatureMatchesReference | src/tasks/41073/1ideal.jsx:111-125 | a result exists iff the units are equal or both are scales, and then each of the six formulas agrees with the conversion through degrees Celsius |
| ConverterIdeal.ConvertTemperature | src/tasks/41073/1ideal.jsx:111-125 | equal units give the value back, and a number comes out exactly when the units are equal or both name a scale |
| ConverterIdeal.ConvertValue | src/tasks/41073/1ideal.jsx:99-109 | a number is shown only for a numeric input; outside temperature, exactly when both units belong to the category |
| ConverterIdeal.SameUnitIsIdentity | src/tasks/41073/1ideal.jsx:99-125 | converting to the same unit returns the input |
| ConverterIdeal.ConvertRoundTrip | src/tasks/41073/1ideal.jsx:99-125 | converting from a to b and back returns the input in every category |
| ConverterIdeal.ConvertComposes | src/tasks/41073/1ideal.jsx:99-125 | converting a to b then b to d equals converting a to d |
| ConverterIdeal.TemperatureChains | src/tasks/41073/1ideal.jsx:117-124 | the Fahrenheit/kelvin formulas are the composition through Celsius |
| ConverterIdeal.StaleUnitsShowNothing | src/tasks/41073/1ideal.jsx:75-97 | the converter keeps its units across tabs, so length units in the weight or temperature tab give no result |
| ConverterIdeal.ToFixed6 | src/tasks/41073/1ideal.jsx:108 | `toFixed(6)` read back: a number with at most six decimals, within half a millionth of the result, and the result itself when it already has at most six decimals |
| ConverterIdeal.Shown | src/tasks/41073/1ideal.jsx:108 | the stored result text: empty exactly for NaN, otherwise within half a millionth of the result |
| ConverterIdeal.SwapShowsZero | src/tasks/41073/1ideal.jsx:127-131 | one milligram is shown as 0.000000 tonnes, so swapping gives an input of 0 tonnes and a result of 0 milligrams |
| ConverterIdeal.SwapRoundTrip | src/tasks/41073/1ideal.jsx:127-131 | when the shown result has at most six decimals, converting it back gives the original input |
| ConverterIdeal.DefaultQuickConversions | src/tasks/41073/1ideal.jsx:51-72 | every category has a list of quick conversions |
| ConverterIdeal.DefaultQuickConversionsConvert | src/tasks/41073/1ideal.jsx:51-72 | every default quick conversion names two units of its own category |
| ConverterIdeal.UnitConverter.constructor | src/tasks/41073/1ideal.jsx:74-97 | starts in length, metre to kilometre, input 1 and result 0.001, no favourites, the default quick conversions and an empty form |
| ConverterIdeal.UnitConverter.SetCategory | src/tasks/41073/1ideal.jsx:95-97 | the category changes and the result is recomputed from the kept units |
| ConverterIdeal.UnitConverter.SetFromValue | src/tasks/41073/1ideal.jsx:81-97 | the input changes and the result is recomputed |
| ConverterIdeal.UnitConverter.SetUnits | src/tasks/41073/1ideal.jsx:75-97 | the units change and the result is recomputed |
| ConverterIdeal.UnitConverter.SwapUnits | src/tasks/41073/1ideal.jsx:127-131 | the units change places and the input becomes the shown six-decimal result; the new result is the old input when the shown result lost no digits |
| ConverterIdeal.UnitConverter.AddFavorite | src/tasks/41073/1ideal.jsx:139-142 | a snapshot of the converter is appended to the favourites |
| ConverterIdeal.UnitConverter.RemoveFavorite | src/tasks/41073/1ideal.jsx:144-147 | exactly the favourite at the index is removed, the rest keep their order |
| ConverterIdeal.UnitConverter.SelectFavorite | src/tasks/41073/1ideal.jsx:149-154 | the favourite's units and input are restored and the result is recomputed |
| ConverterIdeal.UnitConverter.SetSlider | src/tasks/41073/1ideal.jsx:156-159 | the slider value becomes the input |
| ConverterIdeal.UnitConverter.ApplyQuickConvert | src/tasks/41073/1ideal.jsx:161-165 | the button's two units are selected |
| ConverterIdeal.UnitConverter.SetNewQuickConvert | src/tasks/41073/1ideal.jsx:89-93 | the form's fields are replaced |
| ConverterIdeal.UnitConverter.AddCustomQuickConvert | src/tasks/41073/1ideal.jsx:167-175 | a complete form is appended to the active category's list and cleared; an incomplete one changes nothing |
| ConverterIdeal.UnitConverter.RemoveQuickConvert | src/tasks/41073/1ideal.jsx:177-185 | only the active category's list loses the entry at the index; other categories are untouched |
| ConverterA.RatiosPositive | src/tasks/41073/1a.jsx:31-38 | every ratio of the length table is positive |
| ConverterA.ScaleOf | src/tasks/41073/1a.jsx:16 | a unit names a scale exactly when it is one of the temperature options |
| ConverterA.LengthRatioInverted | src/tasks/41073/1a.jsx:39 | as written, one kilometre comes out as 0.001 m and one metre as 1000 km: the length in metres is not kept |
| ConverterA.FahrenheitKelvinAsWritten | src/tasks/41073/1a.jsx:24-28 | as written, 32 °F comes out as 305.15 K (the reference gives 273.15) and 273.15 K as 0 °F (the reference gives 32) |
| ConverterA.ConvertAsWritten | src/tasks/41073/1a.jsx:19-43 | `convert` as written: equal units give the value back, and there is no number exactly for distinct non-temperature units missing from the ratio table |
| ConverterA.AsWrittenRoundTrip | src/tasks/41073/1a.jsx:19-43 | even as written, converting between two table units and back returns the input |
| ConverterA.Convert | src/tasks/41073/1a.jsx:19-43 | corrected: no result exactly for distinct units outside temperature that are missing from the ratio table |
| ConverterA.ConvertKeepsMetres | src/tasks/41073/1a.jsx:31-39 | corrected, a length conversion keeps the length in metres |
| ConverterA.ConvertMatchesReference | src/tasks/41073/1a.jsx:24-28 | corrected, every temperature conversion is the conversion through degrees Celsius |
| ConverterA.ConvertLaws | src/tasks/41073/1a.jsx:19-43 | corrected, converting there and back returns the input and two conversions compose |
| ConverterA.SameUnitAndMissingUnits | src/tasks/41073/1a.jsx:20-39 | equal units return the value in every category; weight and volume units, absent from the ratio table, give NaN |
| ConverterA.Converter.constructor | src/tasks/41073/1a.jsx:46-52 | one metre in feet, length, no favourites and no custom rows |
| ConverterA.Converter.SetValue | src/tasks/41073/1a.jsx:55-105 | the value changes and the effect recomputes the result |
| ConverterA.Converter.SetUnits | src/tasks/41073/1a.jsx:114-126 | the units change and the result is recomputed |
| ConverterA.Converter.SetKind | src/tasks/41073/1a.jsx:137 | the unit type changes, the units are kept, and the result is recomputed |
| ConverterA.Converter.Swap | src/tasks/41073/1a.jsx:67-70 | the units change places, the value stays, and the result converts the value between the swapped units |
| ConverterA.Converter.AddFavorite | src/tasks/41073/1a.jsx:72-81 | the current units and type end up in the favourites, appended only when not saved before, so the favourites stay distinct |
| ConverterA.Converter.SelectFavorite | src/tasks/41073/1a.jsx:168-172 | the favourite's units and type are selected |
| ConverterA.Converter.RemoveFavorite | src/tasks/41073/1a.jsx:179-182 | exactly the favourite at the index goes |
| ConverterA.Converter.AddCustom | src/tasks/41073/1a.jsx:189-195 | an empty row is appended |
| ConverterA.Converter.SetCustomFrom | src/tasks/41073/1a.jsx:205-209 | only that row's `from` changes |
| ConverterA.Converter.SetCustomTo | src/tasks/41073/1a.jsx:214-218 | only that row's `to` changes |
| ConverterA.Converter.RemoveCustom | src/tasks/41073/1a.jsx:221-225 | exactly that row goes |
| ConverterB.TemperatureMatchesReference | src/tasks/41073/1b.jsx:18-29 | between the three scales, every branch is the conversion through degrees Celsius |
| ConverterB.TemperatureConvert | src/tasks/41073/1b.jsx:18-29 | equal units give the value back, and any source other than C or F is read as kelvin |
| ConverterB.TemperatureRoundTrip | src/tasks/41073/1b.jsx:18-29 | converting to another scale and back returns the input |
| ConverterB.UnknownTargets | src/tasks/41073/1b.jsx:21-28 | an unknown target is read as kelvin from C or F and as Fahrenheit from K |
| ConverterB.IndexOf | src/tasks/41073/1b.jsx:52-53 | the first position of the unit, or -1 exactly when it is absent |
| ConverterB.Conversion | src/tasks/41073/1b.jsx:45-56 | a result is always produced; outside temperature it is not finite exactly when the source unit is first in its list |
| ConverterB.ByPosition | src/tasks/41073/1b.jsx:51-53 | not finite exactly when the source unit is at index 0 |
| ConverterB.Proportional | src/tasks/41073/1b.jsx:51-53 | `v * (1 / i) * j` is not finite exactly when i is 0 |
| ConverterB.FirstUnitNotFinite | src/tasks/41073/1b.jsx:39-56 | the initial metre-to-kilometre conversion shows no number |
| ConverterB.IndexRatio | src/tasks/41073/1b.jsx:51-53 | from any unit but the first, the value is scaled by the ratio of the two list positions |
| ConverterB.IndexRatioRoundTrip | src/tasks/41073/1b.jsx:51-53 | between two units neither of which is first, converting back returns the value |
| ConverterB.App.constructor | src/tasks/41073/1b.jsx:38-42 | one metre to kilometres, length, no result |
| ConverterB.App.SetValue | src/tasks/41073/1b.jsx:87-112 | the value changes; the result does not |
| ConverterB.App.SetUnits | src/tasks/41073/1b.jsx:91-103 | the units change; the result does not |
| ConverterB.App.HandleConversion | src/tasks/41073/1b.jsx:45-56 | the result becomes the conversion of the current value and units |
| ConverterB.App.SwapUnits | src/tasks/41073/1b.jsx:58-61 | the units change places; the shown result stays |
| DiscountIdeal.CalculateDiscount | src/tasks/41121/1ideal.jsx:97-103 | the discounted price and the saving add up to the price, the saving is the percentage of the price, and the final price adds the tax percentage to the discounted price |
| DiscountIdeal.DiscountBounds | src/tasks/41121/1ideal.jsx:97-118 | for inputs the guard accepts, the discounted price lies between 0 and the price, the saving is not negative, and tax never lowers the price |
| DiscountIdeal.Check | src/tasks/41121/1ideal.jsx:105-126 | "not numbers" iff price or discount does not parse; accepted iff all are in range, with a blank tax read as 0 |
| DiscountIdeal.Pushed | src/tasks/41121/1ideal.jsx:143 | the new entry comes first, followed by the previous entries in order, keeping at most ten |
| DiscountIdeal.PushedKeepsAllWhileRoom | src/tasks/41121/1ideal.jsx:143 | while the history holds fewer than ten entries, nothing is dropped |
| DiscountIdeal.ComparisonRows | src/tasks/41121/1ideal.jsx:360-364 | no rows when the price is not a number; otherwise one breakdown per listed discount, in order, with the comparison tax (blank is 0) |
| DiscountIdeal.ComparisonOrdered | src/tasks/41121/1ideal.jsx:97-103 | a larger discount never gives a larger final price |
| DiscountIdeal.SavingsGoalAsWritten | src/tasks/41121/1ideal.jsx:177 | as written, the percentage brings the price down to the goal; for a 100 item and a 20 goal it asks 80 %, which saves 80 |
| DiscountIdeal.DiscountNeeded | src/tasks/41121/1ideal.jsx:177-182 | corrected: the percentage whose discount saves exactly the goal |
| DiscountIdeal.DiscountNeededInRange | src/tasks/41121/1ideal.jsx:166-172 | under the guard the needed percentage is strictly between 0 and 100 |
| DiscountIdeal.SavingsGoal | src/tasks/41121/1ideal.jsx:162-183 | a percentage is shown iff both inputs are positive numbers with the goal below the price, and then it lies strictly between 0 and 100 and saves the goal |
| DiscountIdeal.SubtotalAppend | src/tasks/41121/1ideal.jsx:208-212 | the running total adds one row's contribution at a time |
| DiscountIdeal.UnparsedRowsIgnored | src/tasks/41121/1ideal.jsx:186-211 | a row whose price or quantity is not a number, including a newly added row, changes nothing |
| DiscountIdeal.SubtotalNonNegative | src/tasks/41121/1ideal.jsx:208-212 | non-negative prices and quantities give a non-negative total |
| DiscountIdeal.BulkDiscount | src/tasks/41121/1ideal.jsx:199-222 | invalid iff the discount is not a number from 0 to 100; otherwise the totals before and after differ by the saving, which is the percentage of the total |
| DiscountIdeal.BulkBounds | src/tasks/41121/1ideal.jsx:214-215 | with an admissible discount the total after the discount lies between 0 and the total before it |
| DiscountIdeal.Calculator.constructor | src/tasks/41121/1ideal.jsx:80-95 | empty history, comparison discounts 10, 20, 30, one blank bulk row, no results and no error |
| DiscountIdeal.Calculator.SetInputs | src/tasks/41121/1ideal.jsx:80-82 | the three inputs are replaced |
| DiscountIdeal.Calculator.HandleCalculate | src/tasks/41121/1ideal.jsx:105-144 | a rejected input shows its message and clears the results, leaving the history alone; an accepted one shows the breakdown and pushes one entry |
| DiscountIdeal.Calculator.ClearHistory | src/tasks/41121/1ideal.jsx:146-148 | the history becomes empty |
| DiscountIdeal.Calculator.SetComparisonInputs | src/tasks/41121/1ideal.jsx:89-90 | the discount to add and the comparison tax are replaced |
| DiscountIdeal.Calculator.AddComparisonDiscount | src/tasks/41121/1ideal.jsx:150-156 | an admissible discount is appended and the input is cleared; anything else changes nothing |
| DiscountIdeal.Calculator.RemoveComparisonDiscount | src/tasks/41121/1ideal.jsx:158-160 | exactly the discount at the index is removed |
| DiscountIdeal.Calculator.SetSavingsGoal | src/tasks/41121/1ideal.jsx:91 | the goal input is replaced |
| DiscountIdeal.Calculator.CalculateSavingsGoal | src/tasks/41121/1ideal.jsx:162-183 | the panel shows the corrected savings-goal result |
| DiscountIdeal.Calculator.AddBulkItem | src/tasks/41121/1ideal.jsx:185-187 | a blank row with quantity 1 is appended |
| DiscountIdeal.Calculator.RemoveBulkItem | src/tasks/41121/1ideal.jsx:189-191 | exactly the row at the index is removed |
| DiscountIdeal.Calculator.SetBulkPrice | src/tasks/41121/1ideal.jsx:193-197 | only that row's price changes |
| DiscountIdeal.Calculator.SetBulkQuantity | src/tasks/41121/1ideal.jsx:193-197 | only that row's quantity changes |
| DiscountIdeal.Calculator.SetBulkDiscount | src/tasks/41121/1ideal.jsx:94 | the bulk discount input is replaced |
| DiscountIdeal.Calculator.CalculateBulkDiscount | src/tasks/41121/1ideal.jsx:199-222 | the panel shows the bulk result of the current rows and discount |
| DiscountA.ParseFloat | src/tasks/41121/1a.jsx:26-28 | a number comes out exactly when the field holds one |
| DiscountA.Coerce | src/tasks/41121/1a.jsx:48-63 | arithmetic on a string: NaN exactly for text, 0 for a blank field |
| DiscountA.Perform | src/tasks/41121/1a.jsx:24-39 | no validation: the saving exists iff price and discount parse, the final price iff all three parse |
| DiscountA.AgreesWithIdeal | src/tasks/41121/1a.jsx:24-39 | with all three inputs present, the saving and final price equal those of the ideal calculator |
| DiscountA.BlankTaxHasNoFinalPrice | src/tasks/41121/1a.jsx:28-30 | a blank tax gives NaN as the final price, while the saving is still the percentage of the price |
| DiscountA.ComparisonResults | src/tasks/41121/1a.jsx:45-52 | one row per comparison discount, in order, with the coerced price less that discount |
| DiscountA.Discounted | src/tasks/41121/1a.jsx:48 | a figure exists exactly when the coerced price is a number |
| DiscountA.ComparisonRowsAreDiscounts | src/tasks/41121/1a.jsx:45-52 | each row is the price less that discount's saving, and a blank price shows 0 in every row |
| DiscountA.RequiredDiscount | src/tasks/41121/1a.jsx:54-59 | 0 when either field is not a number; finite whenever the price is a non-zero number |
| DiscountA.RequiredDiscountReachesGoal | src/tasks/41121/1a.jsx:56-57 | taking the required percentage off a positive price leaves the goal |
| DiscountA.Sum | src/tasks/41121/1a.jsx:62-65 | the total is a number iff no row's price or quantity is text |
| DiscountA.Line | src/tasks/41121/1a.jsx:63 | a row's product is a number iff neither field is text |
| DiscountA.BulkTotal | src/tasks/41121/1a.jsx:61-67 | a number iff the sum is; a discount that is not a number counts as 0 |
| DiscountA.BlankItemsAddNothing | src/tasks/41121/1a.jsx:21-65 | the blank row with quantity 1 adds nothing to the total |
| DiscountA.App.constructor | src/tasks/41121/1a.jsx:10-22 | empty history, blank inputs, comparison discounts 10 and 20, one blank bulk row, blank bulk discount |
| DiscountA.App.SetCurrent | src/tasks/41121/1a.jsx:81 | the calculator's inputs are replaced |
| DiscountA.App.PerformCalculation | src/tasks/41121/1a.jsx:24-43 | one result is appended at the end of the history and the inputs are cleared |
| DiscountA.App.ClearHistory | src/tasks/41121/1a.jsx:84 | the history becomes empty |
| DiscountA.App.SetComparisonDiscounts | src/tasks/41121/1a.jsx:91 | the comparison list is replaced |
| DiscountA.App.SetSavingsGoal | src/tasks/41121/1a.jsx:98 | the savings inputs are replaced |
| DiscountA.App.SetBulk | src/tasks/41121/1a.jsx:105-107 | the bulk rows and discount are replaced |
| DiscountA.App.Comparison | src/tasks/41121/1a.jsx:45-52 | one row per comparison discount |
| DiscountA.App.Required | src/tasks/41121/1a.jsx:99 | 0 unless price and goal are numbers; for a positive price, the percentage that brings the price down to the goal |
| DiscountA.App.Total | src/tasks/41121/1a.jsx:108 | a total exactly when every row parses, the undiscounted sum for a blank discount, and 0 for a 100 % discount |
| Calendar.NewYears | src/tasks/41302/1a.jsx:49-53 | the calendar conversion puts day 0 in January 1970 and day 365 in January 1971 |
| Calendar.MonthOf | src/tasks/41302/1a.jsx:49-53 | `getMonth` of a day: the month is always between 1 and 12 |
| WorkoutIdeal.SubmitWorkout | src/tasks/41302/1ideal.jsx:21-27 | a workout is produced iff type, duration and intensity are all filled in, carrying them and today's date |
| WorkoutIdeal.SubmitGoal | src/tasks/41302/1ideal.jsx:101-107 | a goal is produced iff name, target and unit are all filled in, with the clock as id and no progress |
| WorkoutIdeal.WithProgress | src/tasks/41302/1ideal.jsx:357-361 | the goals with that id get the new progress; every other goal and the order are unchanged |
| WorkoutIdeal.WithProgressLaws | src/tasks/41302/1ideal.jsx:357-361 | a second update of the same goal overrides the first; updates of different goals commute |
| WorkoutIdeal.StreakFrom | src/tasks/41302/1ideal.jsx:198-218 | the streak never exceeds the number of workouts |
| WorkoutIdeal.CalculateStreak | src/tasks/41302/1ideal.jsx:199-218 | the loop computes the streak counted back from today: stop at a gap of more than a day, count a workout on the running day and move the day back |
| WorkoutIdeal.StreakDaysLogged | src/tasks/41302/1ideal.jsx:206-215 | a streak of n means a workout was logged on each of the n days counted back from today |
| WorkoutIdeal.ConsecutiveDaysCount | src/tasks/41302/1ideal.jsx:206-215 | newest first, one workout per day back from today: every workout counts |
| WorkoutIdeal.NoRecentWorkout | src/tasks/41302/1ideal.jsx:210 | when the newest workout is more than a day old, the streak is 0 |
| WorkoutIdeal.StreakDots | src/tasks/41302/1ideal.jsx:233-240 | the widget always shows seven dots |
| WorkoutIdeal.FilledDots | src/tasks/41302/1ideal.jsx:233-240 | exactly min(streak, 7) dots are filled |
| WorkoutIdeal.Summarize | src/tasks/41302/1ideal.jsx:256-260 | the count, the total duration, and an average intensity that times the count gives the total intensity (0 when empty) |
| WorkoutIdeal.SummaryOf | src/tasks/41302/1ideal.jsx:247-260 | this month's summary counts at most the logged workouts, and with none of them the minutes and the average are 0 |
| WorkoutIdeal.SummaryAfterLogging | src/tasks/41302/1ideal.jsx:247-260 | logging a workout today adds one workout and its minutes to this month's summary |
| WorkoutIdeal.AverageOnScale | src/tasks/41302/1ideal.jsx:247-260 | with every intensity from 1 to 10, this month's average is from 1 to 10 |
| WorkoutIdeal.MeanOnScale | src/tasks/41302/1ideal.jsx:258-259 | the mean of intensities from 1 to 10 is from 1 to 10 |
| WorkoutIdeal.SumBounds | src/tasks/41302/1ideal.jsx:257-259 | a sum of n terms from 1 to 10 lies between n and 10n |
| WorkoutIdeal.BestIndex | src/tasks/41302/1ideal.jsx:294-300 | the reduce ends on a workout no other exceeds, and every earlier one is strictly smaller (the first maximum wins); the seed of 0 stays when nothing is positive |
| WorkoutIdeal.PersonalBest | src/tasks/41302/1ideal.jsx:287-306 | the shown best is at least every workout's value, has a date iff it is positive, and then is a logged workout's value and date |
| WorkoutIdeal.NewRecord | src/tasks/41302/1ideal.jsx:294-300 | a workout that beats the record becomes the new record |
| WorkoutIdeal.App.constructor | src/tasks/41302/1ideal.jsx:338-339 | no workouts, the two initial goals, blank forms |
| WorkoutIdeal.App.EditWorkout | src/tasks/41302/1ideal.jsx:19 | the workout form is replaced |
| WorkoutIdeal.App.LogWorkout | src/tasks/41302/1ideal.jsx:21-27 | a complete form puts the new workout first and clears the form; an incomplete one changes nothing |
| WorkoutIdeal.App.EditGoal | src/tasks/41302/1ideal.jsx:99 | the goal form is replaced |
| WorkoutIdeal.App.AddGoal | src/tasks/41302/1ideal.jsx:101-107 | a complete form appends the new goal and clears the form; an incomplete one changes nothing |
| WorkoutIdeal.App.UpdateGoal | src/tasks/41302/1ideal.jsx:357-361 | the goals become `WithProgress` of the old goals |
| WorkoutIdeal.App.Streak | src/tasks/41302/1ideal.jsx:220 | the widget's figure is the streak of the current list |
| WorkoutA.IdsDistinct | src/tasks/41302/1a.jsx:35-40 | ids assigned as length plus one never repeat |
| WorkoutA.CurrentStreak | src/tasks/41302/1a.jsx:42-47 | the count never exceeds the number of workouts |
| WorkoutA.StreakAfterAdding | src/tasks/41302/1a.jsx:35-47 | a workout logged now adds exactly one to the count |
| WorkoutA.StreakCountsRecent | src/tasks/41302/1a.jsx:42-47 | every workout of the last seven days counts, wherever it is: the figure counts workouts, not consecutive days |
| WorkoutA.Weight | src/tasks/41302/1a.jsx:61-72 | high weighs 3, medium 2, anything else 1 |
| WorkoutA.Summarize | src/tasks/41302/1a.jsx:54-64 | the count, the minutes, and an average weight that times the count gives the total weight (0 when empty) |
| WorkoutA.MonthlySummary | src/tasks/41302/1a.jsx:49-65 | this month's summary counts at most the logged workouts, and with none of them the minutes and the average are 0 |
| WorkoutA.AverageWeightInRange | src/tasks/41302/1a.jsx:49-65 | whenever there is a workout this month, the average weight is from 1 to 3 |
| WorkoutA.MeanWeightInRange | src/tasks/41302/1a.jsx:57-63 | the mean weight of a non-empty list is from 1 to 3 |
| WorkoutA.WeightSumBounds | src/tasks/41302/1a.jsx:58-62 | the weights of n workouts add up to between n and 3n |
| WorkoutA.MonthIgnoresYear | src/tasks/41302/1a.jsx:51-53 | only the month is compared: on 1 January 1971 a workout of 1 January 1970 counts as this month's |
| WorkoutA.MaxOf | src/tasks/41302/1a.jsx:69-74 | minus infinity exactly for the empty list; otherwise an element no other exceeds |
| WorkoutA.PersonalBest | src/tasks/41302/1a.jsx:67-76 | both bests are minus infinity with no workouts; otherwise the highest weight is from 1 to 3 |
| WorkoutA.LongestIsAWorkout | src/tasks/41302/1a.jsx:69 | the longest duration is one of the workouts' and none is longer |
| WorkoutA.Progress | src/tasks/41302/1a.jsx:93-98 | the goal bar is never negative and shows 100 exactly when the type's count equals the target |
| WorkoutA.ProgressStep | src/tasks/41302/1a.jsx:95-97 | each workout of the goal's type adds 100 / target points |
| WorkoutA.App.constructor | src/tasks/41302/1a.jsx:18-30 | the app starts from the mock workout, dated at start-up |
| WorkoutA.App.AddWorkout | src/tasks/41302/1a.jsx:35-40 | the workout is appended with id length + 1 and the current time, keeping ids equal to positions plus one |
| DiaryB.StoredPassword | src/tasks/41374/1b.jsx:57-62 | the stored password is never empty: the saved one, or "password123" when none (or an empty one) was saved |
| DiaryB.Save | src/tasks/41374/1b.jsx:72-80 | an entry is saved iff content and mood are filled in, carrying the draft and the save time |
| DiaryB.TagsOf | src/tasks/41374/1b.jsx:156 | one tag per comma-separated piece, each the trimmed piece |
| DiaryB.TagsAreTrimmedPieces | src/tasks/41374/1b.jsx:156 | no tag contains a comma or starts or ends with a space |
| DiaryB.EmptySearchShowsAll | src/tasks/41374/1b.jsx:86-96 | an empty search shows every entry |
| DiaryB.Matches | src/tasks/41374/1b.jsx:86-96 | every entry matches the empty search |
| DiaryB.Filtered | src/tasks/41374/1b.jsx:86-96 | only matching entries, and every matching entry, are shown |
| DiaryB.CaseOnlyMattersInContent | src/tasks/41374/1b.jsx:90-93 | the content is searched case-sensitively and the tags case-insensitively |
| DiaryB.DeleteAsWrittenMissesTheCard | src/tasks/41374/1b.jsx:82-84 | with entries "rest day" and "gym" and the search "gym", deleting card 0 removes "rest day" and the shown card stays |
| DiaryB.DeleteNthMatch | src/tasks/41374/1b.jsx:82-84 | removing the n-th shown entry never lengthens the list |
| DiaryB.DeleteNthMatchShown | src/tasks/41374/1b.jsx:194-209 | the shown list loses exactly the clicked card |
| DiaryB.DeleteNthMatchKeepsHidden | src/tasks/41374/1b.jsx:86-96 | entries hidden by the search are never touched |
| DiaryB.DeleteNthMatchAllShown | src/tasks/41374/1b.jsx:82-84 | when every entry is shown, the card number and the list index agree |
| DiaryB.DeleteShownLaws | src/tasks/41374/1b.jsx:82-96 | corrected delete: the clicked card goes, hidden entries stay, and without a search it is the delete as written |
| DiaryB.DeleteShown | src/tasks/41374/1b.jsx:82-84 | corrected delete: a card on screen removes exactly one entry, any other index removes nothing |
| DiaryB.Zeroes | src/tasks/41374/1b.jsx:99-100 | every listed mood starts at 0 and no other key exists |
| DiaryB.MoodStats | src/tasks/41374/1b.jsx:98-103 | the loop computes the tally of the entries in order |
| DiaryB.TallyCounts | src/tasks/41374/1b.jsx:98-103 | every listed mood shows its number of entries |
| DiaryB.MoodCountsAddUp | src/tasks/41374/1b.jsx:98-103 | with only listed moods, the five counts add up to the number of entries |
| DiaryB.JsRemainder | src/tasks/41374/1b.jsx:42 | JavaScript's remainder: between -b and b, and the usual remainder for a non-negative dividend |
| DiaryB.PromptAsWritten | src/tasks/41374/1b.jsx:33-43 | for a non-negative timestamp the prompt is one of the list |
| DiaryB.PromptNeverChanges | src/tasks/41374/1b.jsx:41-42 | every midnight timestamp is a multiple of 5, so the prompt is always the first one |
| DiaryB.DailyPrompt | src/tasks/41374/1b.jsx:33-43 | corrected: the prompt is one of the list |
| DiaryB.PromptsDistinct | src/tasks/41374/1b.jsx:34-40 | the five prompts are different |
| DiaryB.DailyPromptCycles | src/tasks/41374/1b.jsx:33-43 | corrected: consecutive days show different prompts, and the list comes round every five days |
| DiaryB.Diary.constructor | src/tasks/41374/1b.jsx:46-62 | the stored password is set up and copied into the field; logged out, no entries, a blank draft, an empty tag field, no search |
| DiaryB.Diary.TypePassword | src/tasks/41374/1b.jsx:119 | the password field is replaced |
| DiaryB.Diary.Authenticate | src/tasks/41374/1b.jsx:64-70 | logged in iff already so or the field holds the stored password |
| DiaryB.Diary.EditContent | src/tasks/41374/1b.jsx:144-146 | only the draft's content changes, to the typed text |
| DiaryB.Diary.EditTags | src/tasks/41374/1b.jsx:150-158 | the tag field shows the typed text and the draft's tags become its comma-separated pieces, trimmed; content and mood stay |
| DiaryB.Diary.EditMood | src/tasks/41374/1b.jsx:162-166 | only the draft's mood changes, to the chosen one |
| DiaryB.Diary.AddEntry | src/tasks/41374/1b.jsx:72-80 | a complete draft appends the entry and clears the draft; an incomplete one changes nothing; the uncontrolled tag field keeps its text either way |
| DiaryB.Diary.Search | src/tasks/41374/1b.jsx:186 | the search term is replaced |
| DiaryB.Diary.DeleteEntry | src/tasks/41374/1b.jsx:82-84 | corrected: the clicked card's entry goes and the shown list loses exactly that card |
| DiaryA.RandomPrompt | src/tasks/41374/1a.jsx:31-33 | the drawn prompt is one of the list |
| DiaryA.NewEntry | src/tasks/41374/1a.jsx:57-61 | the clock as id, the content and mood as typed, and at least one comma-free tag whose comma-join is the tag text |
| DiaryA.TagsKeepSpaces | src/tasks/41374/1a.jsx:60 | spaces after commas stay in the tags: "work, gym" gives "work" and " gym" |
| DiaryA.DeleteId | src/tasks/41374/1a.jsx:65-67 | no kept entry has the id, and every entry with another id is kept |
| DiaryA.DeleteIdLaws | src/tasks/41374/1a.jsx:65-67 | deleting an absent id changes nothing, and deleting twice is deleting once |
| DiaryA.DeleteUndoesAdd | src/tasks/41374/1a.jsx:57-67 | deleting the id of an entry just appended with a new id gives back the list |
| DiaryA.Diary.constructor | src/tasks/41374/1a.jsx:36-39 | logged out, password "password123", no entries, and the prompt `getRandomPrompt` picks for the draw |
| DiaryA.Diary.SubmitLogin | src/tasks/41374/1a.jsx:51-55 | logged in iff already so or the typed password is the password |
| DiaryA.Diary.SubmitEntry | src/tasks/41374/1a.jsx:57-63 | with no check at all, the new entry goes last |
| DiaryA.Diary.DeleteEntry | src/tasks/41374/1a.jsx:65-67 | the entries become `DeleteId` of the old ones |
| DiaryA.Diary.NewPrompt | src/tasks/41374/1a.jsx:42-49 | the timer's new prompt is the one `getRandomPrompt` picks for the draw, always one of the list |
| Hex.DigitChar | src/tasks/41085/1a.jsx:96 | `toString(16)` writes a lower-case digit whose value is the number |
| Hex.ParseDigitsBound | src/tasks/41085/1a.jsx:90 | k hex digits denote a number below 16^k |
| Hex.ToHex | src/tasks/41085/1a.jsx:96 | `toString(16)` writes at least one hex digit |
| Hex.ToHexRoundTrip | src/tasks/41085/1a.jsx:90-96 | reading the written digits back gives the number |
| Hex.ToHexLength | src/tasks/41085/1a.jsx:96 | numbers below 16^k need at most k digits |
| Hex.HexPrefixLength | src/tasks/41085/1a.jsx:90 | the leading run of hex digits, ended by the first non-digit |
| Hex.ParseInt16 | src/tasks/41085/1a.jsx:90 | NaN exactly when the text is empty or does not start with a hex digit; an all-hex text is read whole |
| Hex.CssHexColor | src/tasks/41085/1b.jsx:12-61 | a colour is read exactly from `#` with three, four, six or eight hex digits; the colour is 24 bits and the alpha a byte, and three or six digits are opaque |
| Hex.Pad6 | src/tasks/41085/1a.jsx:96 | six digits that read back as the number |
| Hex.ZerosInFront | src/tasks/41085/1a.jsx:96 | leading zeros do not change the value |
| Hex.ParseDigitsConcat | src/tasks/41085/1b.jsx:124-127 | digits written one after another: the first group is shifted left by the length of the second |
| Hex.BlackAndWhite | src/tasks/41085/1b.jsx:128 | "#000000" is colour 0 and "#FFFFFF" is 0xFFFFFF |
| IconsB.Slice | src/tasks/41085/1b.jsx:125-127 | `slice` returns the substring between in-range bounds and the empty string past the end |
| IconsB.ChannelsOf | src/tasks/41085/1b.jsx:124-127 | on a well-formed colour the three channels parse, each is a byte, and together they are the colour CSS paints |
| IconsB.ContrastColor | src/tasks/41085/1b.jsx:124-129 | black or white; black iff all three channels parse and 0.299 r + 0.587 g + 0.114 b exceeds 186 |
| IconsB.ContrastOfWellFormed | src/tasks/41085/1b.jsx:124-129 | on a well-formed colour, black iff the brightness of the painted colour exceeds 186 |
| IconsB.ContrastMonotone | src/tasks/41085/1b.jsx:128 | raising any channel never turns black text into white |
| IconsB.WhiteGetsBlack | src/tasks/41085/1b.jsx:128 | white gets black text |
| IconsB.BlackGetsWhite | src/tasks/41085/1b.jsx:128 | black gets white text |
| IconsB.ThreeDigitColourGetsWhite | src/tasks/41085/1b.jsx:124-129 | "#FFF" paints white but has no blue pair, so the text is white |
| IconsB.Palette | src/tasks/41085/1b.jsx:11-20 | five colours per palette; an unknown name falls back to Vibrant |
| IconsB.RandomColor | src/tasks/41085/1b.jsx:19-22 | the colour is one of the palette's (of Vibrant for an unknown name) |
| IconsB.PaletteWellFormed | src/tasks/41085/1b.jsx:11-17 | every palette entry is `#` and six hex digits |
| IconsB.RandomColorIsRead | src/tasks/41085/1b.jsx:48-49 | every drawn background is well formed, so the text colour follows its brightness |
| IconsB.Span | src/tasks/41085/1b.jsx:73-82 | the drawn text is as wide as measured, placed by the alignment |
| IconsB.TextXAsWritten | src/tasks/41085/1b.jsx:76-81 | as written, right-aligned text ends a text width plus 10 short of the right edge |
| IconsB.RightAlignedTextAsWritten | src/tasks/41085/1b.jsx:73-82 | on a 64-pixel icon, right-aligned text 40 wide spans -26 to 14 and starts outside the canvas |
| IconsB.TextPlacement | src/tasks/41085/1b.jsx:73-82 | corrected: left text starts 10 in, right text ends 10 from the edge, centred text is centred, and text that fits the margins stays inside them |
| IconsB.TextX | src/tasks/41085/1b.jsx:73-82 | corrected anchor: 10 from the left or right edge it aligns to, or the middle for centred text |
| IconsB.Draw | src/tasks/41085/1b.jsx:45-92 | the background is from the palette and readable as a colour, the text is black iff the background's brightness exceeds 186 and white otherwise, vertically centred |
| IconsB.GridRotations | src/tasks/41085/1b.jsx:223-235 | one rotation per preview, the first at the chosen rotation and each next 10 degrees further |
| IconsB.GridRotationsDistinct | src/tasks/41085/1b.jsx:232 | no two previews share a rotation |
| IconsB.GridRotationsIncrease | src/tasks/41085/1b.jsx:232 | preview j is rotated 10 (j - i) degrees further than preview i |
| IconsB.App.constructor | src/tasks/41085/1b.jsx:132-139 | text "Icon", size 64, the number 1 of icons, Vibrant, circle, Arial, centred, the number 0 of degrees |
| IconsB.App.SetShape | src/tasks/41085/1b.jsx:174-178 | checked sets a circle, unchecked a square, and the switch shows checked exactly for a circle; nothing else changes |
| IconsB.App.SetNumIcons | src/tasks/41085/1b.jsx:162-166 | the number of icons becomes the array `[n]` the slider hands over; nothing else changes |
| IconsB.App.SetRotation | src/tasks/41085/1b.jsx:202-206 | the rotation becomes the array `[degrees]` the slider hands over; nothing else changes |
| IconsB.App.SetPalette | src/tasks/41085/1b.jsx:167 | only the palette changes |
| IconsB.App.SetAlignment | src/tasks/41085/1b.jsx:188 | only the alignment changes |
| IconsB.App.Grid | src/tasks/41085/1b.jsx:223-235 | one preview per element of `Array(numIcons)`, each turned by `rotation + i * 10` as the canvas reads it; until the rotation slider moves, these are the intended rotations 10 degrees apart |
| IconsB.PreviewCount | src/tasks/41085/1b.jsx:223 | `Array(n)` of a number has n slots; `Array([n])` has one |
| IconsB.PreviewDegrees | src/tasks/41085/1b.jsx:232 | a number rotation adds 10 i; an array rotation is joined as text with 10 i, so it is shifted left by the digits of 10 i before 10 i is added |
| IconsB.RotatedGridAsWritten | src/tasks/41085/1b.jsx:232 | at 45 degrees the first two previews turn 450 and 4510 degrees |
| IconsB.GridAfterBothSliders | src/tasks/41085/1b.jsx:162-232 | once both sliders have moved, the grid is one preview turned by ten times the chosen rotation |
| IconsA.ReplaceFirst | src/tasks/41085/1a.jsx:90 | `replace` with a one-character pattern drops the first occurrence only: one character shorter when present, unchanged otherwise |
| IconsA.GenerateColor | src/tasks/41085/1a.jsx:88-93 | black or white; black iff the background without its `#` parses and exceeds half of 0xFFFFFF |
| IconsA.Draw | src/tasks/41085/1a.jsx:96 | the drawn number is always below 0xFFFFFF |
| IconsA.BackgroundAsWritten | src/tasks/41085/1a.jsx:96 | as written: `#` and unpadded hex digits |
| IconsA.BackgroundParsesBack | src/tasks/41085/1a.jsx:88-96 | the background reads back as the drawn number, and the text is black iff it is above half |
| IconsA.ShortBackgroundAsWritten | src/tasks/41085/1a.jsx:88-96 | 4095 is written "#fff", which paints white, and the text chosen for it is white |
| IconsA.ShortBackgroundUnread | src/tasks/41085/1a.jsx:96 | numbers needing one, two or five digits give backgrounds that are no colour at all |
| IconsA.FourDigitBackgroundTranslucent | src/tasks/41085/1a.jsx:96 | numbers needing four digits give `#rgba` backgrounds whose alpha is 17 times the last digit, translucent unless that digit is `f` |
| IconsA.Background | src/tasks/41085/1a.jsx:96 | corrected: six digits, read back as the number both by CSS and by `generateColor` |
| IconsA.GenerateIcon | src/tasks/41085/1a.jsx:95-102 | the background paints the drawn number and the text is the colour chosen for it |
| IconsA.TextVisible | src/tasks/41085/1a.jsx:88-102 | corrected, the text is black exactly on the upper half of the colours and never paints the background's colour |
| IconsA.GenerateIcons | src/tasks/41085/1a.jsx:104-107 | one icon per draw, each with the background and text `GenerateIcon` gives |
| IconsA.Toggle | src/tasks/41085/1a.jsx:135-137 | the shape becomes a circle or a rectangle, never the one it was |
| IconsA.ToggleTwice | src/tasks/41085/1a.jsx:135-137 | toggling twice returns the shape |
| IconsA.App.constructor | src/tasks/41085/1a.jsx:66-75 | text "Icon", size "64", one icon, Vibrant, rectangle, Arial, centred, no rotation, no icons |
| IconsA.App.ToggleShape | src/tasks/41085/1a.jsx:133-138 | the shape toggles and nothing else changes |
| IconsA.App.SetQuantity | src/tasks/41085/1a.jsx:126-131 | only the quantity changes, at most 10 |
| IconsA.App.Generate | src/tasks/41085/1a.jsx:104-107 | the icons become `quantity` fresh icons, one per draw; nothing else changes |

## Left out

- Rendering: JSX, layout, the UI component library, icons and charts.
- Canvas drawing: the canvas rotation and the Blob download in `src/tasks/41085/1b.jsx`. Only the colours, the text position and the grid rotations are modelled.
- Browser I/O: clipboard, toasts, alerts, timers and localStorage. The stored diary password is a constructor parameter; the diary's daily timer is a method taking a fresh draw.
- `Math.random()` and `Date.now()`: both are parameters.
- Parsing and formatting: `parseFloat`, `parseInt` of decimals, `toFixed` and template strings. An input is a parsed number or `None`, and results are exact. The one place a formatted result is read back as a number, the swap of `src/tasks/41073/1ideal.jsx`, models `toFixed(6)` (ConverterIdeal.ToFixed6).
- `parseInt(s, 16)` is modelled for text of hex digits only. Leading whitespace, a sign and a `0x` prefix are not read.
- Floating point: all arithmetic is exact.
  - The contrast threshold compares decimals exactly.
  - Settlement uses integer cents, so the `< 0.01` skip is "less than one cent".
  - Conversion round trips (ConverterIdeal.ConvertRoundTrip, ConverterB.TemperatureRoundTrip and the like) hold in exact arithmetic, where IEEE-754 doubles would be off by a rounding error. The on-screen swap is not exact even so: it goes through the six-decimal text (ConverterIdeal.SwapShowsZero).
- Dates: time zones and daylight saving are not modelled; a day is always 86400000 ms. `createdAt` ISO strings are timestamps.
- React scheduling: stale closures and batched `setState` calls inside one handler are not modelled. Each handler is one transition; effects run right after it.
- Regular expressions: modelled as ASCII character-class predicates.
- Text.LowerChar, Text.Lower: only the ASCII letters A to Z are lower-cased. `toLowerCase` maps every Unicode upper-case letter (À, Σ, …), and some of them, such as İ, to more than one character; searches over such text are not modelled.
- Inputs that arrive as strings from `e.target.value` are taken as the numbers they spell. JavaScript's implicit string-to-number coercion is modelled only in the DiscountA calculator (DiscountA.Coerce); elsewhere a typed number is a number.
- ConverterA.Converter.SetValue: a typed value is the string `e.target.value` (`src/tasks/41073/1a.jsx:100`). For Celsius or Fahrenheit to kelvin, `result += 273.15` (line 28) then joins text, `result.toFixed(2)` (line 42) throws a TypeError inside the effect (line 56), and the app is unmounted. The model converts the number instead and does not capture this crash; only the initial numeric value converts as modelled.
- PasswordA.Criteria, PasswordA.RawScore, PasswordB.Score, PasswordIdeal.Strength, PasswordIdeal.Compliant: the minimum-length checks use JavaScript's `.length`, which counts UTF-16 code units, while a Dafny string counts Unicode scalar values. A password of characters outside the Basic Multilingual Plane is twice as long in the source: "😀😀😀😀" has length 8 there and 4 in the model.
- ExpenseSplitA.App.UpdateExpense: the edit form stores the raw amount text (`src/tasks/41113/1a.jsx:270`), and the model's `Edit.amount` is a number, so a blank edit is not representable. In the source it makes `parseFloat("")` NaN in the totals (lines 78 and 86): the edited expense's payer gets a NaN balance, and `perPerson` falls back to 0 through `|| 0`, so every other balance becomes what that person paid.
- `src/tasks/41344` (loan calculators): left out. They rely on floating-point powers and `Intl` currency formatting.
- `src/tasks/41121/1b.jsx`: left out, because every line is commented out.
- IconsA.App.SetQuantity: the slider hands over an array `[n]`, and `Array.from({length: [n]})` reads that length as the number `n`, so the model stores `n`. The slider's own `value={[quantity]}` then becomes `[[n]]`; that is rendering and not modelled.
- Undeclared components: `src/tasks/41085/1a.jsx` renders `Toggle` (line 133), which it never imports, and `RadioGroup.Item` (line 151), which is undefined; `src/tasks/41121/1a.jsx` renders `Tab` (lines 73-76) and `Calculator`, `Comparison`, `SavingsGoal` and `BulkDiscount` (lines 79-108), which it never declares; `src/tasks/41302/1a.jsx` renders `WorkoutForm`, `RecentWorkouts`, `StreakTracker`, `MonthlySummary`, `PersonalBests` and `WorkoutDetailDialog` (lines 106-124), which it never declares (line 130 only says they would be defined there); `src/tasks/41374/1a.jsx` renders `<Option>` (line 119), which it never imports, so its diary view throws once logged in. As written these apps fail to render. The IconsA.App, DiscountA.App, WorkoutA.App and DiaryA.Diary handlers are modelled as if those components rendered and called them.
- IconsA.GenerateIcon: the palette selector has no effect in `src/tasks/41085/1a.jsx`, so it is not consulted.
- ConverterIdeal.UnitConverter.SelectFavorite: the result is always recomputed. When the favourite's units and input equal the current ones, the effect does not run again and the favourite's stored result stays on screen; the model does not capture this.
- ConverterA.Converter.SetCustomFrom: the row object is shared between the old and the copied array and is mutated in place. The model replaces it by value, so the aliasing is not captured. The same holds for ConverterA.Converter.SetCustomTo and DiscountIdeal.Calculator.SetBulkPrice/SetBulkQuantity.
- ConverterB.App: `category` has no setter in the component, so it is a constant; only lengths are converted in the app.
- PasswordB: the strength effect watches only the password, so after a checkbox edit the shown strength can be stale. The model keeps the strength a multiple of 20 but does not tie it to the current criteria.

## Findings

| source | as written | input that shows it | evidently intended | confidence | as-written member | corrected member |
|---|---|---|---|---|---|---|
| src/tasks/41145/1ideal.jsx:112-121 | the upper-case fix-up overwrites the last character, which can be the only lower-case letter | default policy, draws that fill "1111111a": result "1!11111A" | every generated password meets the policy | not executed | PasswordIdeal.GeneratedCanMissLowercase | PasswordIdeal.GenerateCompliantPassword |
| src/tasks/0000/test.jsx:349-355 | `upvotes` is set to the card's net count while `downvotes` is kept, so the net count drops by the down-votes | post with 245 up and 12 down, up-vote: card shows 234, stored net 222 | the stored net count equals the card's | not executed | Forum.VoteAsWrittenLosesDownvotes, Forum.WithVoteAsWritten | Forum.WithVote |
| src/tasks/41073/1a.jsx:39 | length is multiplied by `ratios[to] / ratios[from]` | 1 km to m gives 0.001 | `ratios[from] / ratios[to]`, keeping the length in metres | not executed | ConverterA.LengthRatioInverted | ConverterA.Convert, ConverterA.ConvertKeepsMetres |
| src/tasks/41073/1a.jsx:27-28 | Fahrenheit and kelvin are related by the 273.15 offset alone | 273.15 K gives 0 °F | conversion through degrees Celsius (273.15 K) | not executed | ConverterA.FahrenheitKelvinAsWritten | ConverterA.ConvertMatchesReference |
| src/tasks/41121/1ideal.jsx:177 | `(price - goal) / price * 100` brings the price down to the goal | price 100, goal 20: 80 %, saving 80 | the discount that saves the goal (20 %) | not executed | DiscountIdeal.SavingsGoalAsWritten | DiscountIdeal.DiscountNeeded, DiscountIdeal.SavingsGoal |
| src/tasks/41374/1b.jsx:82-84, 194, 209 | delete takes the card's index in the filtered list as an index in the full list | entries "rest day", "gym"; search "gym"; delete card 0: "rest day" goes | the clicked card's entry goes | not executed | DiaryB.DeleteAsWrittenMissesTheCard | DiaryB.DeleteShownLaws, DiaryB.Diary.DeleteEntry |
| src/tasks/41374/1b.jsx:41-42 | the prompt index is the midnight timestamp mod 5, and every such timestamp is a multiple of 5 | any day: always the first prompt | a prompt that changes from day to day | not executed | DiaryB.PromptNeverChanges | DiaryB.DailyPrompt, DiaryB.DailyPromptCycles |
| src/tasks/41085/1a.jsx:96 | the background is written without zero padding | 4095 gives "#fff", painted white, with white text | a six-digit `#rrggbb` colour | not executed | IconsA.ShortBackgroundAsWritten, IconsA.ShortBackgroundUnread, IconsA.FourDigitBackgroundTranslucent | IconsA.Background, IconsA.TextVisible |
| src/tasks/41085/1b.jsx:76-81 | right-aligned text is drawn at `size - textWidth - 10` although `textAlign` is also right | size 64, text width 40: span -26 to 14 | the text ends 10 from the right edge | not executed | IconsB.RightAlignedTextAsWritten | IconsB.TextPlacement, IconsB.Draw |
| src/tasks/41085/1b.jsx:162-166, 202-206, 223-232 | both sliders store the array `[v]` they hand over, so `Array(numIcons)` has one slot and `rotation + i * 10` joins text | 5 icons, 45 degrees: one preview, turned 450 degrees | five previews at 45, 55, 65, 75 and 85 degrees | not executed | IconsB.GridAfterBothSliders, IconsB.RotatedGridAsWritten | IconsB.GridRotations, IconsB.GridRotationsDistinct |
