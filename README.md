# Narrative dice engine of the FFG Star Wars dice roller

This project models the dice engine of the `halimath/diceroller` repository in Dafny and proves properties about it. The engine resolves rolls of the narrative dice of the Star Wars roleplaying game from Fantasy Flight Games. It comes in four near-duplicate versions, and each is modelled with its own behaviour:

- **`src/script/models`** (TypeScript, modules `Dice` and `ScriptModels`):
  - the seven dice and their face tables;
  - `Die.roll`;
  - an immutable `Pool` whose `addDie` appends and whose `removeDie` splices at `indexOf`, so an absent die takes the last one with it;
  - `PoolResult.aggregate`, which counts every symbol and also counts each Triumph as a Success and each Despair as a Failure;
  - the dense `normalize`, which always returns all eight keys.
- **`src/models`** (TypeScript, module `Models`):
  - the same dice, pool and aggregation;
  - a sparse `normalize` that keeps only positive counts;
  - the getters of `NormalizedPoolResultImpl`, which read an absent key as 0;
  - `format()`.
- **`src/script/utils` and `src/utils`** (TypeScript, module `ScriptUtils`):
  - the URL-hash codec, which writes one character per die kind;
  - the start-up code that rebuilds a pool from the page's hash.
- **`diceroller`** (Rust crate, module `DiceRoller`):
  - a `Pool` that is sorted by die order after `new` and `add`;
  - `AggregatedSymbols`, whose `HashMap` holds only the symbols counted; it cancels Success/Failure, Advantage/Threat and Light Side/Dark Side;
  - `Display`.
- **`swrpgdiceroller`** (the older Rust crate, module `SwrpgDiceRoller`):
  - the same API without the Force die and without Light Side and Dark Side;
  - only two cancelled pairs;
  - a lower-case `Display`.

Module `Agreement` relates the versions. For rolls that show the same symbols:

- `diceroller` and the sparse web `normalize` agree on every symbol except Light Side and Dark Side;
- `swrpgdiceroller` agrees with the sparse web `normalize` exactly.

Modelling choices:

- **Randomness is a parameter.** A TypeScript roll takes the face index `Math.random()` would pick. A Rust roll takes the random number `r` and uses the side at `r % len`.
- **TypeScript dice are objects.** `Die` is a class because `indexOf` compares object references.
- **Imperative code stays imperative.** The Rust `Pool` and `AggregatedSymbols` are classes whose methods update their fields. TypeScript `aggregate`, `normalize` and `format()` are methods with loops or step-by-step updates.
- **Every method is proved against a specification function.** For example, `Totals` specifies the Rust totals, `DenseNormalForm` and `SparseNormalForm` specify the two `normalize` functions, and `Rendered` specifies `Display`. The lemmas then state what those functions mean.

## Model

| member | source | states |
|---|---|---|
| Dice.SideSymbols | diceroller/src/lib.rs:30-38 | a blank side shows no symbol, `One` shows its one symbol, `Two` shows both in order; never more than two |
| Dice.FaceTable | src/script/models/index.ts:26-131 | the face tables entry by entry; 8 sides for Ability and Difficulty, 12 for Proficiency, Challange and Force, 6 for Boost and Setback; every side shows only that die's symbols |
| Dice.TallyOccurrences | src/script/models/index.ts:243-252 | each counter ends at the occurrences of its symbol, plus the Triumphs for Success and the Despairs for Failure |
| Dice.TallyPromotion | src/script/models/index.ts:243-252 | the Success count is at least the Triumph count, and the Failure count at least the Despair count |
| Dice.TallySnoc | src/script/models/index.ts:245-251 | counting one more symbol adds exactly its hits to each counter |
| Text.NatToString | diceroller/src/lib.rs:312 | a count prints as decimal digits with no leading zero that read back as the count |
| Text.Join | diceroller/src/lib.rs:356 | a join of no parts is empty; otherwise its length is the parts' total length plus one separator between each two parts |
| Text.JoinStart | diceroller/src/lib.rs:356 | a join of strings starts with the first string |
| Text.JoinAppend | diceroller/src/lib.rs:356 | joining two non-empty runs of parts gives the join of the first, one separator, then the join of the second |
| Text.Concat | swrpgdiceroller/src/lib.rs:284-326 | the parts written one after the other: the length is their total length |
| Seqs.Filter | src/models/index.ts:225-282 | the symbols of an order that are kept, in that order: never longer than the order, and every one is in the order and in the kept set |
| Seqs.FilterAll | src/models/index.ts:225-282 | when every element is kept, filtering gives the whole order back |
| Seqs.IndexOf | src/script/models/index.ts:177 | `indexOf` is -1 exactly when the element is absent, and otherwise is the first index that holds it |
| Seqs.Position | diceroller/src/lib.rs:195 | `position` is `None` exactly when no die is equal, and otherwise is the first equal index |
| Seqs.RemoveAt | diceroller/src/lib.rs:196 | `Vec::remove` shifts the later elements down one place and removes one copy of that element |
| Seqs.RemoveFirst | diceroller/src/lib.rs:194-198 | removing an absent element changes nothing; a present one loses exactly one copy, the one at its first index |
| Seqs.SpliceOne | src/script/models/index.ts:177 | `splice(start, 1)` removes the element at `start` when it is in range, counts a negative `start` back from the end (so -1 removes the last element, and a start before the front removes the first), and removes nothing from an empty array or at or past the end |
| Seqs.RemoveAtSorted | diceroller/src/lib.rs:194-198 | removing an element keeps the dice sorted |
| Seqs.InsertBy | diceroller/src/lib.rs:216-218 | inserting into a sorted sequence gives a sorted sequence holding one more copy of the element |
| Seqs.SortBy | diceroller/src/lib.rs:216-218 | the sort result is ascending and a permutation of its input |
| Seqs.SortedPermutationUnique | diceroller/src/lib.rs:216-218 | when the order tells elements apart, two sorted permutations of one multiset are equal |
| Seqs.AddRemoveSorted | diceroller/src/lib.rs:189-198 | adding an element, sorting, then removing that element gives back the sorted sequence |
| ScriptModels.Die.constructor | src/script/models/index.ts:133 | a die records its kind, and its faces are the face table of that kind |
| ScriptModels.Die.Roll | src/script/models/index.ts:135-146 | a roll shows the symbols of the chosen side: none for `null`, the pair for a pair, one otherwise; at most two, all printed on that die |
| ScriptModels.DieResult.Blank | src/script/models/index.ts:150-152 | a blank result shows no symbols |
| ScriptModels.Pool.Empty | src/script/models/index.ts:158-160 | `Pool.empty()` is empty |
| ScriptModels.Pool.IsEmpty | src/script/models/index.ts:164-166 | the `empty` getter holds exactly when the pool has no dice |
| ScriptModels.Pool.AddDie | src/script/models/index.ts:168-173 | the old dice unchanged, with the new die appended at the end and no sorting |
| ScriptModels.Pool.RemoveDie | src/script/models/index.ts:175-179 | removes the first entry that is that object; when there is none, removes the last die; an empty pool stays empty |
| ScriptModels.Pool.Roll | src/script/models/index.ts:181-183 | one result per die, in pool order, each the roll of that die |
| ScriptModels.AddRemoveRoundTrip | src/script/models/index.ts:168-179 | adding a die and removing the same object keeps the multiset of dice; if the object was not already in the pool, it gives back the same pool |
| ScriptModels.RemoveOwnEntry | src/script/models/index.ts:175-179 | removing a die object taken from a pool of distinct objects removes exactly that entry |
| ScriptModels.Counts.With | src/script/models/index.ts:246 | writing one key of the counter record changes that count only |
| ScriptModels.PoolResult.Aggregate | src/script/models/index.ts:231-255 | every counter is the tally of the rolled symbols with Triumph and Despair promotion; Success is at least Triumph and Failure at least Despair |
| ScriptModels.PoolResult.Normalize | src/script/models/index.ts:191-229 | the result is the dense normal form of the roll |
| ScriptModels.ApplyDelta | src/script/models/index.ts:206-212 | the larger of the pair gets the difference and the smaller gets 0, with both 0 on a tie; other keys unchanged |
| ScriptModels.CopyPositive | src/script/models/index.ts:214-218 | the key gets the aggregate count (a zero count leaves the 0 in place); other keys unchanged |
| ScriptModels.Symbols | src/script/models/index.ts:243-244 | the flattened symbols: none for no results; every symbol of every result is among them, and each comes from some result |
| ScriptModels.DenseNormalForm | src/script/models/index.ts:191-229 | each opposed pair keeps the difference of its tallies, with at least one side 0; Triumph, Despair, Light Side and Dark Side are their plain tallies |
| ScriptModels.DenseByOccurrences | src/script/models/index.ts:191-255 | the dense normal form as a closed formula in how often each symbol was rolled |
| ScriptModels.SymbolsOfTwo | src/script/models/index.ts:244 | the symbols of two results are the first result's symbols followed by the second's |
| ScriptModels.Scenario | test/models/models.test.ts:27-134 | the normal form of any two-die result, by occurrence counts |
| ScriptModels.SuccessOutweighsFailure | test/models/models.test.ts:27-43 | [S,S],[F] normalizes to one Success and every other key 0 |
| ScriptModels.FailureOutweighsSuccess | test/models/models.test.ts:45-61 | [F,F],[S] normalizes to one Failure and every other key 0 |
| ScriptModels.AdvantageOutweighsThreat | test/models/models.test.ts:63-79 | [A,A],[T] normalizes to one Advantage and every other key 0 |
| ScriptModels.ThreatOutweighsAdvantage | test/models/models.test.ts:81-97 | [T,T],[A] normalizes to one Threat and every other key 0 |
| ScriptModels.TriumphCountsAsSuccess | test/models/models.test.ts:99-116 | [S,Triumph],[F] normalizes to one Success and one Triumph and every other key 0 |
| ScriptModels.DespairCountsAsFailure | test/models/models.test.ts:118-134 | [F,Despair],[S] normalizes to one Failure and one Despair and every other key 0 |
| Models.NormalizedPoolResult.Format | src/models/index.ts:225-282 | the text is the phrases of the positive counts, in the order Success, Advantage, Triumph, Failure, Threat, Despair, Light Side, Dark Side, joined by ", "; it is "" exactly when every count is 0 |
| Models.NormalizedPoolResult.Get | src/models/index.ts:191-221 | a getter reads the stored count, or 0 for an absent key |
| Models.NormalizedPoolResult.Phrases | src/models/index.ts:225-282 | at most eight phrases, none empty, and a positive Success count gives the first phrase |
| Models.Phrase | src/models/index.ts:228-230 | a zero count gives no phrase; a positive one gives exactly one non-empty phrase |
| Models.AppendPhrase | src/models/index.ts:232-237 | one block of `format()` adds the phrase of a positive count and puts ", " before it only when the text so far is not empty |
| Models.PhrasesEmpty | src/models/index.ts:225-282 | there are no phrases exactly when every getter reads 0 |
| Models.Counted | src/models/index.ts:228 | a symbol is counted exactly when its getter reads more than 0 |
| Models.PhrasesOf | src/models/index.ts:229 | one phrase per symbol: "<count> <noun>", with "es" after Success and "s" after any other noun when the count is over 1 |
| Models.PhrasesInOrder | src/models/index.ts:225-282 | the phrases of `format()` are, in order, those of the counted symbols taken in the order Success, Advantage, Triumph, Failure, Threat, Despair, Light Side, Dark Side |
| Models.PhrasesAllCounted | src/models/index.ts:225-282 | when every count is positive there are eight phrases, and the k-th is the phrase of the k-th symbol of that order |
| Models.PhraseListCounted | src/models/index.ts:225-282 | listing the phrase of every symbol of any order (none for a zero count) is listing the phrases of its counted symbols |
| Models.PhrasesAsList | src/models/index.ts:225-282 | `format()` lists the phrase of each symbol of its order, one after the other |
| Models.JoinEmpty | src/models/index.ts:233-235 | non-empty phrases join to "" only when there are none |
| Models.SameReadings | src/models/index.ts:191-221 | two records of positive counts that read the same through the getters are the same record |
| Models.SparseNormalForm | src/models/index.ts:288-316 | every stored count is positive; Success and Failure never both present, nor Advantage and Threat; the getters read the dense normal form |
| Models.Normalize | src/models/index.ts:288-316 | the record built is the sparse normal form of the roll |
| Models.Delta | src/models/index.ts:293-299 | `applyDelta` never writes both keys: it writes the left key exactly when the left count is larger, and the right key exactly when the right count is larger; the value written is the larger count minus the smaller; on a tie it writes nothing |
| Models.Copy | src/models/index.ts:301-305 | `copyPositive` writes its key exactly when the count is positive, and writes that count |
| Models.ApplyDelta | src/models/index.ts:293-299 | the record afterwards is the record before, updated with the entry `applyDelta` writes |
| Models.CopyPositive | src/models/index.ts:301-305 | the record afterwards is the record before, updated with the entry `copyPositive` writes |
| Models.GetUnion | src/models/index.ts:191-221 | a getter reads the later write of a key, else the earlier record |
| Models.WritesRead | src/models/index.ts:307-313 | after the six writes, each getter reads the net count of its pair or its plain count |
| Models.WritesPositive | src/models/index.ts:307-313 | the six writes store only positive counts |
| Models.PositiveUnion | src/models/index.ts:291-305 | merging two records of positive counts keeps every count positive |
| Models.ExpectedIsDense | src/models/index.ts:288-316 | what each getter should read is the dense normal form's count |
| Models.WritesAreSparse | src/models/index.ts:288-316 | writing into the empty record from the aggregates of a roll gives that roll's sparse normal form |
| Models.FormatExample | src/models/index.ts:225-282 | two Successes and a Triumph format as "2 Successes, 1 Triumph" |
| Models.TwoSuccesses | src/models/index.ts:229 | a count of 2 Successes gives "2 Successes" |
| Models.OneTriumph | src/models/index.ts:243 | a count of 1 Triumph gives "1 Triumph", with no plural suffix |
| ScriptUtils.DieKindToChar | src/script/utils/index.ts:8-18 | every kind has one of the codes A, P, D, C, B, S, F |
| ScriptUtils.CharToDieKind | src/script/utils/index.ts:20-32 | throws exactly for a character outside the seven codes, with the message "invalid die kind character: c"; a decoded kind encodes back to the character |
| ScriptUtils.KindRoundTrip | src/script/utils/index.ts:8-32 | decoding the code of a kind gives that kind |
| ScriptUtils.DieKindToCharInjective | src/script/utils/index.ts:8-18 | no two kinds share a code |
| ScriptUtils.PoolToUrlHash | src/script/utils/index.ts:4-6 | the hash has one character per die, and character i is the code of die i's kind |
| ScriptUtils.Encode | src/script/utils/index.ts:5 | mapping dice to codes and joining them gives one code per die, in order |
| ScriptUtils.DecodeKinds | src/script/index.ts:15-21 | decoding never yields more kinds than characters, and yields one kind per character exactly when every character is a valid code |
| ScriptUtils.DecodeKindsInOrder | src/script/index.ts:15-21 | the decoded kinds are the hash's valid codes, in order, each turned into its kind; the other characters are dropped |
| ScriptUtils.HashRoundTrip | src/script/utils/index.ts:4-32 | decoding the hash of a pool gives back the kinds of its dice, in order |
| ScriptUtils.DecodeHash | src/script/index.ts:15-21 | the pool rebuilt from a hash holds fresh dice whose kinds are the valid codes of the hash in order; invalid characters are skipped |
| ScriptUtils.Reload | src/script/control/index.ts:47-50 | reloading at the hash of a pool rebuilds a pool of the same kinds, in the same order |
| DiceRoller.Rank | diceroller/src/lib.rs:42-51 | the derived order puts the seven dice at ranks 0 to 6, with the Force die, declared last, alone at the top |
| DiceRoller.RankInjective | diceroller/src/lib.rs:42-51 | the derived order on `Die` is total: two dice of one rank are the same die |
| DiceRoller.RollDie | diceroller/src/lib.rs:143-146 | the roll records the die and shows the side at `r % len`, which is one of that die's sides |
| DiceRoller.DieRoll.Symbols | diceroller/src/lib.rs:162-164 | a roll shows at most two symbols, and none exactly on a blank side |
| DiceRoller.DieRoll.Aggregate | diceroller/src/lib.rs:166-168 | the totals of a single roll |
| DiceRoller.PoolRoll.Aggregate | diceroller/src/lib.rs:233-235 | the totals of all the rolls |
| DiceRoller.Pool.constructor | diceroller/src/lib.rs:179-183 | the pool holds the given dice, sorted |
| DiceRoller.Pool.Empty | diceroller/src/lib.rs:185-187 | a new empty pool |
| DiceRoller.Pool.Add | diceroller/src/lib.rs:189-192 | the pool gains exactly that die and stays sorted |
| DiceRoller.Pool.Remove | diceroller/src/lib.rs:194-198 | deletes the first equal die, or nothing when there is none; the pool stays sorted |
| DiceRoller.Pool.Clear | diceroller/src/lib.rs:200-202 | after `clear` the pool is empty |
| DiceRoller.Pool.IsEmpty | diceroller/src/lib.rs:212-214 | `is_empty` holds exactly when the pool has no dice |
| DiceRoller.Pool.Roll | diceroller/src/lib.rs:204-206 | one roll per die, with the same die, in pool order |
| DiceRoller.Pool.SortDice | diceroller/src/lib.rs:216-218 | the dice afterwards are the sorted permutation of the dice before |
| DiceRoller.SortIsUnique | diceroller/src/lib.rs:216-218 | any ascending permutation of the dice is the sorted result |
| DiceRoller.AddInserts | diceroller/src/lib.rs:189-192 | adding to a sorted pool inserts the die in place |
| DiceRoller.AddRemove | diceroller/src/lib.rs:189-198 | adding a die and removing it again gives back the sorted pool |
| DiceRoller.Lookup | diceroller/src/lib.rs:277 | `get` is `None` exactly for an absent key, and otherwise the stored total |
| DiceRoller.SameCounts | diceroller/src/lib.rs:242 | two maps of positive totals that agree on every count are equal |
| DiceRoller.RollSymbols | diceroller/src/lib.rs:251-252 | the symbols of the rolls, in roll order: at most two per roll, and none exactly when every roll landed on a blank side |
| DiceRoller.RollSymbolsSnoc | diceroller/src/lib.rs:251-252 | the symbols of one more roll follow those of the earlier rolls |
| DiceRoller.Raw | diceroller/src/lib.rs:251-265 | before cancelling, a key is stored exactly for a symbol that was counted, with its tally |
| DiceRoller.RawSnoc | diceroller/src/lib.rs:252-264 | counting one more symbol is one loop step on the raw totals |
| DiceRoller.StepCount | diceroller/src/lib.rs:253-263 | one loop step adds the symbol's hits to each count |
| DiceRoller.StepPositive | diceroller/src/lib.rs:274-282 | `inc` keeps every stored total at least 1 |
| DiceRoller.Cancel | diceroller/src/lib.rs:284-299 | nothing changes unless both keys are present; then at most one remains, the pair's difference is kept, other keys are untouched, and totals stay positive |
| DiceRoller.TotalsMeaning | diceroller/src/lib.rs:246-272 | after `new`, every total is at least 1; no opposed pair has both keys; each pair keeps the difference of its tallies; Triumph and Despair hold their tallies |
| DiceRoller.TotalsStored | diceroller/src/lib.rs:267-269 | after the three cancellations, totals are positive and no opposed pair has both keys |
| DiceRoller.TotalsCounts | diceroller/src/lib.rs:267-269 | after the three cancellations, each pair keeps its difference of tallies |
| DiceRoller.CancelsKeepCounts | diceroller/src/lib.rs:267-269 | the three cancellations keep each pair's difference and leave Triumph and Despair alone |
| DiceRoller.TriumphOutlivesItsSuccess | diceroller/src/lib.rs:253-269 | a Triumph against a Failure leaves a lone Triumph: its promoted Success cancels the Failure |
| DiceRoller.TriumphAgainstFailure | diceroller/src/lib.rs:253-269 | any rolls showing a Triumph and then a Failure total to a lone Triumph |
| DiceRoller.TriumphAgainstFailureCount | diceroller/src/lib.rs:253-269 | for such rolls the Triumph count is 1 and every other count is 0 |
| DiceRoller.TallyOfTwo | diceroller/src/lib.rs:251-265 | counting two symbols adds both symbols' hits |
| DiceRoller.AggregatedSymbols.constructor | diceroller/src/lib.rs:246-272 | the totals are those of the rolls, all positive |
| DiceRoller.AggregatedSymbols.CountAll | diceroller/src/lib.rs:251-265 | the nested loop leaves the raw totals of every symbol of every roll |
| DiceRoller.AggregatedSymbols.CountRoll | diceroller/src/lib.rs:252-264 | the inner loop adds the symbols of one roll to the raw totals of the symbols counted before |
| DiceRoller.RawPrefixStep | diceroller/src/lib.rs:252-264 | counting the next symbol of a roll is one loop step on the raw totals |
| DiceRoller.AggregatedSymbols.CountSymbol | diceroller/src/lib.rs:253-263 | one symbol is counted, and a Triumph also counts a Success and a Despair also counts a Failure |
| DiceRoller.AggregatedSymbols.Inc | diceroller/src/lib.rs:274-282 | one more under the key, or 1 for a new key |
| DiceRoller.AggregatedSymbols.Normalize | diceroller/src/lib.rs:284-299 | the totals afterwards are the cancellation of the pair |
| DiceRoller.AggregatedSymbols.Display | diceroller/src/lib.rs:303-357 | writes the rendered text of the totals |
| DiceRoller.PushCount | diceroller/src/lib.rs:310-314 | one `match` pushes "1 singular", "count plural", or nothing for an absent key |
| DiceRoller.ElementShape | diceroller/src/lib.rs:310-354 | an element appears exactly for a stored symbol, and it starts with a digit |
| DiceRoller.FirstElement | diceroller/src/lib.rs:308-354 | stored totals give at least one element, and the first starts with a digit |
| DiceRoller.RenderedShape | diceroller/src/lib.rs:303-357 | "<blank>" appears exactly for empty totals; any other text starts with a count |
| DiceRoller.ElementsOf | diceroller/src/lib.rs:310-354 | one element per symbol: "1 <singular>" for a count of 1, else "<count> <plural>"; the plural adds "es" to Success, "s" to the next five, and leaves "Light Side" and "Dark Side" as they are |
| DiceRoller.RenderedInOrder | diceroller/src/lib.rs:303-357 | the elements are those of the stored symbols in the order Success, Failure, Advantage, Threat, Triumph, Despair, Light Side, Dark Side, and the text of stored totals is them joined by ", " |
| SwrpgDiceRoller.Rank | swrpgdiceroller/src/lib.rs:40-48 | the derived order puts this crate's six dice at ranks 0 to 5 |
| SwrpgDiceRoller.RankInjective | swrpgdiceroller/src/lib.rs:40-48 | the derived order on the six dice is total |
| SwrpgDiceRoller.RollDie | swrpgdiceroller/src/lib.rs:125-128 | the roll records the die and shows the side at `r % len`, which has no Light Side or Dark Side |
| SwrpgDiceRoller.DieRoll.Symbols | swrpgdiceroller/src/lib.rs:144-146 | a roll shows at most two symbols, none exactly on a blank side, and never a Light Side or Dark Side |
| SwrpgDiceRoller.DieRoll.Aggregate | swrpgdiceroller/src/lib.rs:148-150 | the totals of a single roll |
| SwrpgDiceRoller.PoolRoll.Aggregate | swrpgdiceroller/src/lib.rs:215-217 | the totals of all the rolls |
| SwrpgDiceRoller.Pool.constructor | swrpgdiceroller/src/lib.rs:161-165 | the pool holds the given dice, sorted |
| SwrpgDiceRoller.Pool.Empty | swrpgdiceroller/src/lib.rs:167-169 | a new empty pool |
| SwrpgDiceRoller.Pool.Add | swrpgdiceroller/src/lib.rs:171-174 | the pool gains exactly that die and stays sorted |
| SwrpgDiceRoller.Pool.Remove | swrpgdiceroller/src/lib.rs:176-180 | deletes the first equal die, or nothing when there is none; the pool stays sorted |
| SwrpgDiceRoller.Pool.Clear | swrpgdiceroller/src/lib.rs:182-184 | after `clear` the pool is empty |
| SwrpgDiceRoller.Pool.IsEmpty | swrpgdiceroller/src/lib.rs:194-196 | `is_empty` holds exactly when the pool has no dice |
| SwrpgDiceRoller.Pool.Roll | swrpgdiceroller/src/lib.rs:186-188 | one roll per die, with the same die, in pool order |
| SwrpgDiceRoller.Pool.SortDice | swrpgdiceroller/src/lib.rs:198-200 | the dice afterwards are the sorted permutation of the dice before |
| SwrpgDiceRoller.SortIsUnique | swrpgdiceroller/src/lib.rs:198-200 | any ascending permutation of the dice is the sorted result |
| SwrpgDiceRoller.AddRemove | swrpgdiceroller/src/lib.rs:171-180 | adding a die and removing it again gives back the sorted pool |
| SwrpgDiceRoller.RollSymbols | swrpgdiceroller/src/lib.rs:144-146 | the rolls of this crate never show a Light Side or Dark Side |
| SwrpgDiceRoller.RollSymbolsSnoc | swrpgdiceroller/src/lib.rs:233-234 | the symbols of one more roll follow those of the earlier rolls |
| SwrpgDiceRoller.NoForceTally | swrpgdiceroller/src/lib.rs:9-17 | rolls of this crate count no Light Side and no Dark Side |
| SwrpgDiceRoller.TotalsMeaning | swrpgdiceroller/src/lib.rs:228-253 | every total is at least 1; only Success/Failure and Advantage/Threat are cancelled, each keeping its difference; Triumph and Despair hold their tallies; no Light Side or Dark Side key |
| SwrpgDiceRoller.AggregatedSymbols.constructor | swrpgdiceroller/src/lib.rs:228-253 | the totals are those of the rolls, all positive and with this crate's symbols only |
| SwrpgDiceRoller.AggregatedSymbols.CountAll | swrpgdiceroller/src/lib.rs:233-247 | the nested loop leaves the raw totals of every symbol of every roll |
| SwrpgDiceRoller.AggregatedSymbols.CountRoll | swrpgdiceroller/src/lib.rs:234-246 | the inner loop adds the symbols of one roll to the raw totals of the symbols counted before |
| SwrpgDiceRoller.AggregatedSymbols.CountSymbol | swrpgdiceroller/src/lib.rs:235-245 | one symbol is counted, and a Triumph also counts a Success and a Despair also counts a Failure |
| SwrpgDiceRoller.AggregatedSymbols.Inc | swrpgdiceroller/src/lib.rs:255-263 | one more under the key, or 1 for a new key |
| SwrpgDiceRoller.AggregatedSymbols.Normalize | swrpgdiceroller/src/lib.rs:265-280 | the totals afterwards are the cancellation of the pair |
| SwrpgDiceRoller.AggregatedSymbols.Display | swrpgdiceroller/src/lib.rs:284-326 | writes the rendered text of the totals |
| SwrpgDiceRoller.WriteCount | swrpgdiceroller/src/lib.rs:289-293 | one `match` appends "1 singular ", "count plural ", or nothing for an absent key |
| SwrpgDiceRoller.WordShape | swrpgdiceroller/src/lib.rs:289-323 | a word appears exactly for a stored symbol, starts with a digit and ends with a space |
| SwrpgDiceRoller.SpacedConcat | swrpgdiceroller/src/lib.rs:289-323 | putting such words together keeps the shape, and gives "" only when both are empty |
| SwrpgDiceRoller.RenderedShape | swrpgdiceroller/src/lib.rs:284-326 | "<blank>" appears exactly for empty totals; any other text starts with a count and ends with a space |
| SwrpgDiceRoller.WordsOf | swrpgdiceroller/src/lib.rs:289-323 | one word per symbol: "1 <singular> " for a count of 1, else "<count> <plural> " |
| SwrpgDiceRoller.FilterNoSides | swrpgdiceroller/src/lib.rs:289-323 | keeping some symbols of an order without Light Side and Dark Side keeps it without them |
| SwrpgDiceRoller.RenderedInOrder | swrpgdiceroller/src/lib.rs:284-326 | the text of stored totals is the piece of each symbol in the order success, failure, advantage, threat, triumph, despair: its word when stored, nothing otherwise |
| SwrpgDiceRoller.RenderedAsPieces | swrpgdiceroller/src/lib.rs:289-323 | each `match` writes the piece of its symbol |
| SwrpgDiceRoller.PiecesAreWords | swrpgdiceroller/src/lib.rs:284-326 | writing the piece of every symbol of an order is writing the words of its stored symbols only, in that order |
| Agreement.PairFixed | diceroller/src/lib.rs:284-299 | an opposed pair with one side at 0 is fixed by its difference |
| Agreement.CrateCounts | diceroller/src/lib.rs:246-272 | for the same symbols, the crate's counts equal the dense web normal form, except Light Side and Dark Side |
| Agreement.SparsePositive | src/models/index.ts:288-316 | the sparse normal form stores only totals of at least 1 |
| Agreement.CrateRestrictedCount | diceroller/src/lib.rs:267-269 | with Light Side and Dark Side set aside, the crate's counts and the sparse web form's counts agree |
| Agreement.CrateAgreesWithWeb | diceroller/src/lib.rs:267-269 | for the same symbols, the crate's totals equal the sparse web normal form once Light Side and Dark Side are removed |
| Agreement.SwrpgCount | swrpgdiceroller/src/lib.rs:249-250 | for the same symbols, the older crate's counts equal those of the sparse web normal form |
| Agreement.SwrpgAgreesWithWeb | swrpgdiceroller/src/lib.rs:249-250 | for the same symbols, the older crate's totals are exactly the sparse web normal form |

## Left out

- `src/utils/index.ts` is the same code as lines 4-32 of `src/script/utils/index.ts`. Module `ScriptUtils` models both.
- Lines 1-183 and 318-342 of `src/models/index.ts` are the same code, up to the name of the symbol enum (`Symbol` there, `DieSymbol` here), as the dice, pool and `aggregate` of `src/script/models/index.ts`. Module `ScriptModels` models them once, and `Models` reuses them.
- Randomness is not modelled. `Math.random()` and its float arithmetic become an injected face index, and `rand::random::<usize>()` becomes an injected natural number.
- `formatPoolResult` is not modelled because it calls the i18n helpers `m` and `mpl`, which are not part of this model.
- `randomNumber` is left out: it only draws a random number.
- The command handler, views, browser helpers, service workers, the Seed app and the build configuration are left out. They are DOM, history, clipboard and network I/O. `ScriptUtils.Reload` keeps only the start-up and `add-die` path, and takes the hash as a string.
- `Pool::iter` is left out: it only lends out an iterator over the dice.
- The `VERSION` constants are left out.
- The derived `Debug`, `Clone` and `Hash` implementations are left out. Dafny equality on datatypes stands for the derived `PartialEq`.
- The `Model` record of the TypeScript app is left out: it only pairs a pool with a result.
- The formatter errors that `write!(...)?` may return are not modelled. `Display` always yields its text.
- Counts are unbounded naturals. A Rust `usize` total cannot overflow with the rolls of a real pool, and the model does not represent wrap-around.
- TypeScript counts are JavaScript numbers, but the model only uses non-negative integer counts, so number formatting is modelled as the decimal numeral of a natural.
- The enums of `swrpgdiceroller` are separate types in a separate crate. They are modelled as subset types of the shared enums, because their variants and face tables are the first six of `diceroller`'s.
- The TypeScript `Die` class stores its own `sides` array. The model derives the sides from the die's kind, because the private constructor is only called with the table that belongs to the kind.
- ScriptModels.Die.Roll: the face index is taken as a precondition `pick < length`, which is what `Math.floor(Math.random() * length)` yields; it does not model float rounding.
- DiceRoller.Pool.Remove and SwrpgDiceRoller.Pool.Remove require the pool to be sorted. Every constructor and method of the pool keeps it sorted.
