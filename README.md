# Offer lab for a sales-funnel business, in Dafny

This project models the logic of `app_socios.py`, a dashboard for partners who
test and scale digital offers. Each offer has:

- a sales funnel: a principal product, aliased `PP`, and bumps, upsells and downsells;
- a list of test ads and a testing table of daily records;
- scale campaigns, each with its components and its own table of daily records;
- a launch checklist parsed from a plain-text template.

The model covers these parts of the program:

- **Checklist outline engine**: parse, unparse and merge. This is module `Checklist`, on top of `PyText`, which gives Python's `strip`, `split('\n')` and `'\n'.join` in their exact forms.
- **Daily metrics**: gross and net revenue, profits and ROAS, written into a record in place. This is module `Metrics`, whose class `DailyEntry` is the mutable record.
- **Ad verdict classifier**: Kill, Winner or Testing, with the trailing sales streak. This is module `Classifier`.
- **Offer state**: offer creation, funnel items and their sales columns, test ads, status toggles, scale campaigns and their components, and record delete, update and append. The values live in module `Offers`. The mutable store is class `Session.Workspace`, whose methods change its maps in place.
- **Roll-up formulas**: per-ad, per-component and temporal tables, campaign totals, conversion and adoption rates, and break-even ROAS (modules `Folds` and `Rollup`); the global dashboard, the weekday analysis and the offer lab (module `Reports`). Dates use a proleptic Gregorian day number with a Monday-first weekday (module `Calendar`).
- **Market-intelligence vault**: module `Intelligence`, class `Vault`.

Modelling choices:

- Money is an exact `real`.
- A Python dictionary is a sequence of entries in insertion order, because the program iterates over dictionaries.
- A pandas table is a value with an ordered column list and a sequence of `Record`s. A record keeps its sales per alias in a map.
- Ids made from the clock are parameters.
- Firestore saves and Streamlit messages are left out.

Behaviours of the code worth knowing:

- **Zero spend.** With zero total investment, the classifier returns Testing, because both of its guards fail. It never returns "no verdict". See `Classifier.ZeroInvestmentTesting`.
- **Two ROAS formulas.** The cumulative ROAS is the sum of the per-record net ROAS values. It is replaced by the ratio of the totals only when investment is positive and a selected offer exists. The two formulas differ on more than one record (`Classifier.FormulasDisagree`) and agree on one record (`Classifier.FormulasAgreeOnOneRecord`).
- **Adding a funnel item can stop early.** It stops in two ways:
  - The insertion position is bound only when the testing table lacked the new column. If the testing table already has the column and the campaigns do not, the position is unbound. That is outcome `UnboundPosition`.
  - The campaigns get the column only if none of them has it yet. A campaign table narrower than the position raises. The campaigns before it have already been changed, so the result is `PositionPastEnd` with a partial update (`Offers.FunnelItemPartial`).
- **Stale profit.** Temporal roll-ups add up the stored net profit but recompute net ROAS with the current commission (`Rollup.StaleProfit`).
- **Two division guards.** Per-ad and per-component ROAS divide only by a positive investment; temporal ROAS divides by any nonzero investment (`Rollup.GuardsAgree`).
- **Weekday labels.** The weekday analysis labels rows with English day names but buckets them under Spanish categories (see Findings).

## Model

| member | source | states |
|---|---|---|
| PyText.Strip | app_socios.py:240-242 | `str.strip()`: the result is stripped, and only the leading and trailing whitespace is removed (see the lemmas below) |
| PyText.TrimStart | app_socios.py:240-242 | `lstrip()`: never longer than the input; `TrimStartSuffix` and `TrimStartDropsSpace` state that it removes exactly a whitespace prefix |
| PyText.TrimEnd | app_socios.py:240-242 | `rstrip()`: never longer than the input; `TrimEndPrefix` and `TrimEndDropsSpace` state that it removes exactly a whitespace suffix |
| PyText.TrimStartDropsSpace | app_socios.py:240 | what a left strip removes is all whitespace |
| PyText.TrimEndDropsSpace | app_socios.py:240 | what a right strip removes is all whitespace |
| PyText.StripIsStripped | app_socios.py:242 | a stripped string neither starts nor ends with whitespace |
| PyText.StripIdempotent | app_socios.py:242 | stripping twice is stripping once |
| PyText.StripChars | app_socios.py:242 | stripping adds no character |
| PyText.Split | app_socios.py:240 | `split('\n')`: at least one piece, and no piece holds a newline |
| PyText.Join | app_socios.py:265 | `'\n'.join(lines)`: the empty list joins to the empty string; `SplitJoin` states that splitting undoes the join |
| PyText.SplitJoin | app_socios.py:265 | splitting a newline-free join gives back the lines |
| PyText.SplitAfterLine | app_socios.py:240 | splitting `line + "\n" + rest` puts the line first |
| Checklist.ParseLine | app_socios.py:242-255 | one line: nothing iff its strip is empty, a task iff its strip starts with `-`, and a task is never complete |
| Checklist.ParseLines | app_socios.py:241-256 | at most one item per line; `ParseLinesAppend` states that line order is kept |
| Checklist.Parse | app_socios.py:238-256 | `parse_checklist`; no contract of its own, `ParseByLines`, `ParseWellFormed` and `RoundTrip` state what it gives |
| Checklist.ParseByLines | app_socios.py:238-256 | parsing is parsing each line of the stripped text |
| Checklist.ParseLineByStrip | app_socios.py:242-255 | a line's meaning depends only on its stripped form |
| Checklist.ParseLinesAppend | app_socios.py:241-256 | parsing a concatenation of lines concatenates the parses, so input order is kept |
| Checklist.LeadingSpaceImmaterial | app_socios.py:240 | the outer `strip()` before splitting changes nothing about the result |
| Checklist.TrailingSpaceImmaterial | app_socios.py:240 | the same for trailing whitespace |
| Checklist.ParseWellFormed | app_socios.py:245-255 | every parsed item is well formed (text stripped, no newline), and every task is incomplete |
| Checklist.Render | app_socios.py:261-264 | a rendered item ends with the item's text; it is two characters longer, starting with `- `, iff the item is a task |
| Checklist.RenderAll | app_socios.py:258-264 | one rendered line per item, phases verbatim and tasks as `"- " + text` |
| Checklist.Unparse | app_socios.py:258-265 | `unparse_checklist`; no contract of its own, `RoundTrip` and `ParseUnparseParse` state that parsing undoes it |
| Checklist.RenderParse | app_socios.py:245-264 | parsing a rendered well-formed item gives the item back, cleared |
| Checklist.RoundTrip | app_socios.py:238-265 | `parse(unparse(items))` is the items with every task incomplete |
| Checklist.ParseUnparseParse | app_socios.py:238-265 | `parse(unparse(parse(t))) == parse(t)` for every outline `t` |
| Checklist.StatusTable | app_socios.py:269 | the `{text: completed}` dictionary; no contract of its own, `StatusTableMeaning` states its keys and values |
| Checklist.StatusTableMeaning | app_socios.py:269 | the carried-over status of a text exists iff an old task has that text, and it is the status of the last such task |
| Checklist.LastTaskUnique | app_socios.py:269 | "the last task with this text" names one position |
| Checklist.CarryOver | app_socios.py:272-274 | one item keeps its kind and text; a task whose text is in the table takes the table's mark, anything else is unchanged |
| Checklist.CarryOverMeaning | app_socios.py:272-274 | carrying over keeps kind and text; a task is complete iff its text was marked done in the old list |
| Checklist.CarryOverMarks | app_socios.py:271-275 | the loop over the parsed items: one result per item, each the carried-over item at its position |
| Checklist.MergeChecklists | app_socios.py:267-275 | loop over the parsed items: same (kind, text) sequence as the parse of the new text, and each task complete iff the last old task with its text was complete |
| Checklist.ClearedNoneDone | app_socios.py:1204-1206 | a freshly parsed checklist has no completed task |
| Checklist.Progress | app_socios.py:1204-1206 | progress lies in [0, 1]; it is 0 without tasks and otherwise the completed tasks over the tasks |
| Checklist.TaskCount | app_socios.py:1204 | the number of tasks is at most the number of items |
| Checklist.DoneCount | app_socios.py:1205 | the completed tasks are at most the tasks |
| Checklist.ProgressComplete | app_socios.py:1204-1206 | progress is 1 iff there are tasks and every one is complete |
| Records.SalesColumn | app_socios.py:284-285 | `Ventas: <alias>` is eight characters longer than the alias |
| Records.SalesColumnInjective | app_socios.py:284-285 | different aliases never share a sales column |
| Records.ColumnIndex | app_socios.py:434 | `get_loc`: the first position holding the column, or none iff the column is absent |
| Records.InsertSalesColumnMeaning | app_socios.py:435 | inserting a sales column puts it at the position, keeps the other columns in order, and gives every row a 0 for it |
| Records.InsertSalesColumnValid | app_socios.py:435 | inserting an absent column keeps the column names distinct |
| Records.NewColumns | app_socios.py:1283 | the columns a concatenation adds are exactly the new ones, each once |
| Records.AppendRow | app_socios.py:1283 | a concatenated row goes last, and the old columns keep their place at the front |
| Records.AppendRowValid | app_socios.py:521 | appending a record whose sales all have columns keeps the table valid |
| Records.DropRow | app_socios.py:390-392 | `drop(index).reset_index()`: the rows before the index stay put, the later ones shift down by one |
| Records.Overwrite | app_socios.py:407-409 | `.loc` per column: each field present in the table takes the edited value, and every other sales value keeps the old one |
| Records.OverwriteValid | app_socios.py:414-420 | overwriting a row in place keeps the table valid |
| Metrics.Ratio | app_socios.py:305-306 | a guarded division is 0 whenever the divisor is not positive |
| Metrics.RatioInverse | app_socios.py:305-306 | with a positive divisor, the ratio times the divisor is the dividend |
| Metrics.PpSales | app_socios.py:296-297 | principal sales are never negative |
| Metrics.GrossRevenue | app_socios.py:292-295 | the revenue of the funnel items in iteration order; no contract of its own, `GrossRevenueBounds` and `PrefixStep` state its sign and its step |
| Metrics.Derive | app_socios.py:302-306 | the date, ad, sales, spend and checkouts are untouched; only the five derived fields change |
| Metrics.WithMetrics | app_socios.py:287-307 | the entry-form inputs (date, ad, sales, spend, checkouts) are untouched, and revenue less gross profit is the spend |
| Metrics.DailyEntry.ComputeMetrics | app_socios.py:287-307 | loop over the funnel items writing into the record in place: the new record is the metrics of the old one |
| Metrics.DailyEntry.WriteMetrics | app_socios.py:302-306 | the five in-place writes |
| Metrics.PrefixStep | app_socios.py:292-297 | one more funnel item adds its own revenue and principal sales to the running totals |
| Metrics.RoasMeaning | app_socios.py:305-306 | both ROAS are 0 without spend; with spend, ROAS times spend is gross, or gross less commissions |
| Metrics.ProfitMeaning | app_socios.py:302-304 | revenue less gross profit is the spend; gross less net profit is the commission on principal sales |
| Metrics.MetricsIdempotent | app_socios.py:287-307 | the calculation never reads its own outputs, so applying it twice is applying it once |
| Metrics.PpSalesOfOnePrincipal | app_socios.py:296-297 | with one principal item, principal sales are the `Ventas: PP` count when positive, else 0 |
| Metrics.NoPrincipalNoPpSales | app_socios.py:296-297 | without a principal item there are no principal sales |
| Metrics.GrossRevenueBounds | app_socios.py:293-295 | with non-negative prices gross revenue is non-negative, and it is 0 when no item has positive sales |
| Metrics.WorkedExample | app_socios.py:287-307 | 3 principal sales at 50 with a spend of 100 give revenue 150, net profit 50 and net ROAS 1.5 |
| Classifier.Classify | app_socios.py:327-332 | the verdict carries the ROAS it was given |
| Classifier.ClassifyThresholds | app_socios.py:327-332 | at the boundaries: 1.2 is not Kill, 1.7 with a streak of 4 is Winner, a streak of 3 is not, and zero spend is never Kill |
| Classifier.ClassifyMonotone | app_socios.py:327-332 | a better ROAS never loses Winner and never gains Kill |
| Classifier.SortByDate | app_socios.py:314 | sorting by date is a permutation |
| Classifier.SortByDateSorted | app_socios.py:314 | and its result is in date order |
| Classifier.InsertByDate | app_socios.py:314 | inserting one record adds exactly that record to the multiset |
| Classifier.SalesStreak | app_socios.py:321-326 | backward loop with a break: the last `n` records all have principal sales, and the one before them (if any) has none |
| Classifier.Streak | app_socios.py:321-326 | the trailing run of selling records, at most the number of records; `SalesStreak` and `StreakUnique` pin it down |
| Classifier.StreakUnique | app_socios.py:321-326 | those two facts fix the streak |
| Classifier.CumulativeRoas | app_socios.py:316-318 | no contract of its own; `FormulasAgreeOnOneRecord` and `FormulasDisagree` state how its two formulas relate |
| Classifier.RoasOfTotals | app_socios.py:316-318 | no contract of its own; the ratio of totals with spend and an offer, else the summed ROAS |
| Classifier.VerdictFor | app_socios.py:312-332 | no contract of its own; `VerdictFigures` states that only the streak depends on date order |
| Classifier.VerdictFigures | app_socios.py:312-332 | an ad's verdict is the rule applied to its cumulative ROAS, total spend and the streak over its date-sorted records |
| Classifier.ZeroInvestmentTesting | app_socios.py:315-332 | with zero total spend the verdict is Testing with ROAS 0 |
| Classifier.FormulasAgreeOnOneRecord | app_socios.py:316-318 | on one record with spend, the two cumulative-ROAS formulas agree |
| Classifier.FormulasDisagree | app_socios.py:316-318 | on two records they do not: the summed ROAS is 4, the ratio of totals 2 |
| Classifier.AnalyzeAd | app_socios.py:312-332 | one ad's verdict as the loop body computes it |
| Classifier.AnalyzeAds | app_socios.py:309-334 | exactly one verdict per distinct ad (none for an empty table), each computed from that ad's records |
| Calendar.Weekday | app_socios.py:931 | a weekday lies in 0..6; `DayNumberEpoch` fixes the origin, so that 0 is Monday (2024-01-01 gets 0, 1970-01-01 gets 3) |
| Calendar.DayNumber | app_socios.py:1067 | no contract of its own; `NextDayInMonth`, `NextDayAcrossMonth` and `NextDayAcrossYear` state that each valid date's successor is the next number, and `DayNumberEpoch` that 1970-01-01 is 0 |
| Calendar.WeekStart | app_socios.py:1635 | the week start lies in the six days before the day or on it; `WeekStartIsMonday` states it is a Monday |
| Calendar.NextDayInMonth | app_socios.py:1067 | within a month, the next day is valid and has the next day number |
| Calendar.NextDayAcrossMonth | app_socios.py:1067 | the last day of a month other than December is followed by the first of the next month, which is valid and has the next day number (February's end depending on the leap year) |
| Calendar.NextDayAcrossYear | app_socios.py:1067 | the 1st of January has the day number after that of the 31st of December of the year before |
| Calendar.DayNumberEpoch | app_socios.py:931 | 1970-01-01 is day 0 and a Thursday (weekday 3); 2024-01-01 is a Monday (weekday 0) |
| Calendar.MarchYearLength | app_socios.py:1067 | a year counted from the first of March has 366 days when the following February has a 29th and 365 otherwise |
| Calendar.MonthLength | app_socios.py:1067 | outside February, a month's length is the gap between its first day's offset and the next month's |
| Calendar.WeekStartIsMonday | app_socios.py:1635 | the week key is a Monday, and every day of that week has the same key |
| Calendar.SameWeek | app_socios.py:1635 | two days share a week key iff they are less than 7 days apart and in weekday order |
| Folds.SumAppend | app_socios.py:1052-1056 | a sum over a concatenation is the sum of the sums |
| Folds.SumPermutation | app_socios.py:314 | reordering the records does not change a sum |
| Folds.SumNonnegative | app_socios.py:902 | a sum of non-negative terms is non-negative, and 0 only if every term is |
| Folds.Select | app_socios.py:312 | the group holds each record of the input carrying the key as many times as the input does, and no other record |
| Folds.SelectAppend | app_socios.py:312 | selecting from a concatenation is selecting from each part in turn, so input order is kept |
| Folds.GroupKeys | app_socios.py:1295 | the group keys are distinct and are exactly the keys that occur |
| Folds.GroupingConserves | app_socios.py:1295 | summing a column per group, then over the groups, gives the column's total |
| Folds.GroupingConservesOver | app_socios.py:934 | the same over any distinct key list that covers every record |
| Rollup.InRange | app_socios.py:1293 | the date filter keeps each record within both bounds as many times as the input holds it, and no other |
| Rollup.InRangeAppend | app_socios.py:1293 | filtering a concatenation filters each part in turn, so order is kept |
| Rollup.InRangeKeepsAll | app_socios.py:897 | a range covering every record keeps them all |
| Rollup.RatioNonZero | app_socios.py:1622-1624 | `div(...).where(inv != 0, 0)` is 0 when the divisor is 0 |
| Rollup.GuardsAgree | app_socios.py:1300-1301 | the two guards agree unless the spend is negative; 100 over -50 is -2 under one and 0 under the other |
| Rollup.TotalsOf | app_socios.py:1295 | no contract of its own; `TotalsColumns` states each column is the sum of its field |
| Rollup.Summarize | app_socios.py:1298-1301 | no contract of its own; `SummaryMeaning` states what CPA and the ROAS figures mean |
| Rollup.SummaryMeaning | app_socios.py:1298-1301 | CPA times principal sales is the spend, or CPA is 0 without sales; front-end ROAS and net ROAS times the spend are their revenues, or 0 without spend |
| Rollup.SummarizeAll | app_socios.py:1503-1509 | one summary row per key, with the totals of that key's records |
| Rollup.SummaryTable | app_socios.py:1295-1301 | no contract of its own; `RollupConserves` states that its columns add up to the record totals |
| Rollup.RollupConserves | app_socios.py:1295-1301 | a summary table's column totals equal the totals over all the records |
| Rollup.TotalsColumns | app_socios.py:1295 | each aggregated column is the sum of that field |
| Rollup.DayKey | app_socios.py:1628 | no contract of its own: the record's date |
| Rollup.WeekKey | app_socios.py:1635 | the week key is a Monday, and the record's day lies in the seven days from it |
| Rollup.MonthKeyOf | app_socios.py:1641 | the month key has the record's year and month |
| Rollup.WeekGroups | app_socios.py:1635 | a weekly group starts on a Monday and holds exactly the records of the seven days from it |
| Rollup.MonthGroups | app_socios.py:1641-1642 | a record is in a monthly group iff it is a record of that year and month, as often as in the input |
| Rollup.StaleProfit | app_socios.py:1622-1626 | a period's net profit reflects the commission in force when the records were saved, while its net ROAS uses the current one |
| Rollup.SumProfitUnder | app_socios.py:303 | summed stored net profit is revenue less spend less the commissions at the old rate |
| Rollup.TotalsOfRows | app_socios.py:1533-1536 | no contract of its own; `TotalsOfRowsMeaning` and `TotalsOfRowsOfRecords` state its figures |
| Rollup.TotalsOfRowsMeaning | app_socios.py:1533-1536 | campaign totals are the column sums of the summary rows, with net ROAS from those sums |
| Rollup.TotalsOfRowsOfRecords | app_socios.py:1533-1536 | so the campaign totals are those of the campaign's records |
| Rollup.CheckoutRate | app_socios.py:1594 | no contract of its own; `RatesArePercentages` states its range |
| Rollup.AdoptionRate | app_socios.py:1606 | no contract of its own; `RatesArePercentages` states its range |
| Rollup.RatesArePercentages | app_socios.py:1594-1606 | a part of a whole gives a rate between 0 and 100, and 100 when it is the whole |
| Rollup.AdoptionRates | app_socios.py:1598-1606 | exactly one figure per non-principal funnel item whose sales column exists, each the item's total sales over principal sales as a percentage |
| Rollup.AdoptionRatesInOrder | app_socios.py:1598-1606 | the figures follow funnel order: those of a split funnel are those of each part in turn |
| Rollup.BreakEvenMeaning | app_socios.py:1147-1149 | break-even ROAS is at least 1 (exactly 1 without commission), and at that ROAS net profit is 0 |
| Rollup.BreakEvenRoas | app_socios.py:1147-1149 | no contract of its own; `BreakEvenMeaning` states it is at least 1 and gives zero net profit |
| Offers.NewOffer | app_socios.py:336-360 | a new offer has the given name and funnel type, status in testing, one active principal item `PP` at the given price, no ads and no campaigns, the ten testing columns and no rows, zero commission and CPA target; with a template its checklist carries the template's name and the parse of the template's text, without one there is none; it is valid |
| Offers.TestingColumnsDistinct | app_socios.py:344 | the ten testing columns are distinct |
| Offers.NewOfferChecklist | app_socios.py:352-357 | with a template, the checklist takes its name and holds the parse of its text, whose items are well formed with none completed |
| Offers.AliasLetter | app_socios.py:428-429 | the alias letter is B, U, D or E |
| Offers.CountPrefixed | app_socios.py:428 | the count of keys with the prefix is at most the number of keys |
| Offers.FunnelSlot | app_socios.py:427-430 | no contract of its own; `FunnelSlotNotPrincipal` and `FirstSlots` state which alias and key it gives |
| Offers.FunnelSlotNotPrincipal | app_socios.py:427-430 | a new item never takes the principal alias or key |
| Offers.FirstSlots | app_socios.py:427-430 | on a fresh funnel the first Bump is `B1` under `bump_1` and the first Upsell `U1` under `upsell_1` |
| Offers.PutEntry | app_socios.py:431 | assigning a key keeps the length if the key exists and adds one entry otherwise |
| Offers.PutEntryMeaning | app_socios.py:431 | the key holds the new item, the other entries are unchanged, and the keys are the old ones plus this one |
| Offers.PutEntryValid | app_socios.py:431 | storing a non-principal item keeps the funnel valid with exactly one principal |
| Offers.PrincipalAliasCount | app_socios.py:296-297 | in a valid funnel, the principal alias occurs once if the principal exists and never otherwise |
| Offers.OfferPpSales | app_socios.py:296-297 | in a valid offer, principal sales are the `Ventas: PP` count when positive, else 0 |
| Offers.WithFunnelItem | app_socios.py:425-440 | the funnel gets the new active item under its slot; nothing but the funnel and tables changes; the missing revenue column is reported iff both columns are absent; the unbound position is reported iff the testing table already had the column, some campaign exists and none has it; both failures leave the testing and campaign tables unchanged; a testing table that had the column is untouched, and one that did not gets it inserted just before the revenue column |
| Offers.FunnelItemValid | app_socios.py:425-440 | adding an item keeps a valid offer valid and the item is stored |
| Offers.FunnelItemColumns | app_socios.py:432-439 | on success the testing table has the column, in front of the revenue column and 0 in every row; campaigns are untouched when some campaign had the column or there are none, and otherwise each gets the column inserted at the testing table's position |
| Offers.FunnelItemPartial | app_socios.py:436-439 | when a campaign is too narrow, the campaigns before it have the column and it and the later ones are untouched |
| Offers.FirstNarrow | app_socios.py:437-439 | the first campaign narrower than the position, if any |
| Offers.InsertIntoFirst | app_socios.py:437-439 | inserting into the first campaigns keeps their ids |
| Offers.WithTestAd | app_socios.py:442-449 | an ad is added, active and last, iff its name is non-empty and unused; otherwise nothing changes |
| Offers.TestAdDistinct | app_socios.py:444 | ad names stay distinct |
| Offers.FirstNamed | app_socios.py:452-455 | the first ad with the name, or none iff no ad has it |
| Offers.Toggled | app_socios.py:451-455 | toggling keeps the names and their order |
| Offers.ToggleTwice | app_socios.py:451-455 | toggling twice restores the list; toggling an absent name changes nothing, and otherwise flips exactly the first ad with the name |
| Offers.FlipStatus | app_socios.py:459-460 | the new status always differs from the old one |
| Offers.ToggledItem | app_socios.py:458-460 | toggling keeps the length and the keys of the funnel |
| Offers.ToggleItemTwice | app_socios.py:458-460 | toggling a funnel item twice restores it; the item under the key has its status flipped, every other entry is unchanged, only status changes, and the funnel stays valid |
| Offers.ToggledCampaign | app_socios.py:463-466 | toggling keeps the length and the ids of the campaigns |
| Offers.ToggleCampaignTwice | app_socios.py:463-466 | toggling a campaign twice restores it; the campaign under the id has its active flag flipped, every other one is unchanged, and only the flag changes |
| Offers.Components | app_socios.py:483-489 | every component starts active; 1-1-X with a truthy X gives `[AD i] <base ad>` for i from 1 to X, 1-X-1 gives `Conjunto de Anuncios i`, anything else one component holding the base ad |
| Offers.ScaleColumns | app_socios.py:479-481 | fixed columns, then one sales column per funnel item in funnel order, then revenue, profit and ROAS |
| Offers.NewCampaign | app_socios.py:491-496 | a new campaign has the given name, strategy, X and budget, is active, keeps its base ad, has the scale columns of the funnel and no rows, and its components are those of the strategy |
| Offers.CampaignIndex | app_socios.py:464 | a campaign is found iff its id is present |
| Offers.PutCampaign | app_socios.py:491 | storing a campaign puts it under its id and leaves every other campaign as it was; it adds the id when new, and the ids stay distinct |
| Offers.WithCampaign | app_socios.py:502-521 | the campaign under the id becomes the new one in place, every other campaign stays as it was, and the ids and every other field of the offer are kept |
| Offers.CampaignOfWith | app_socios.py:502-521 | after the replacement, looking up the id gives the new campaign |
| Offers.CampaignIndexByIds | app_socios.py:464 | the position found for an id depends only on the sequence of ids |
| Offers.ActiveAliases | app_socios.py:1270-1277 | the aliases offered in the record form are exactly those of active funnel items |
| Offers.RecordColumnsHaveSales | app_socios.py:1280 | every offered alias has its sales column in the new record |
| Session.TemplateFor | app_socios.py:352 | a template applies iff an id is given, non-empty and known |
| Session.NameTaken | app_socios.py:338 | no contract of its own: some offer already has the name |
| Session.ToggleFirst | app_socios.py:451-455 | the loop with `break` gives the toggled list |
| Session.BuildComponents | app_socios.py:483-489 | the `range(1, x + 1)` loop builds the component list of the strategy |
| Session.InsertIntoCampaigns | app_socios.py:437-439 | the campaign loop stops at the first too-narrow table, having inserted into the ones before |
| Session.Workspace.constructor | app_socios.py:336 | an empty, valid workspace |
| Session.Workspace.Put | app_socios.py:370-372 | storing a valid offer under an existing id keeps the workspace valid and changes only that entry |
| Session.Workspace.CreateOffer | app_socios.py:336-360 | the offer is created and selected iff no offer has the name; otherwise nothing changes |
| Session.Workspace.SelectOffer | app_socios.py:362-368 | the selection changes and nothing else |
| Session.Workspace.SetStatus | app_socios.py:370-373 | only the status of that offer changes |
| Session.Workspace.DeleteOffer | app_socios.py:375-382 | an existing offer is removed and the selection cleared; an unknown id changes nothing |
| Session.Workspace.SetFinancials | app_socios.py:384-388 | only the commission and CPA target of that offer change |
| Session.Workspace.DeleteTestRecord | app_socios.py:390-394 | the testing row at the index is dropped |
| Session.Workspace.DeleteScaleRecord | app_socios.py:396-400 | the campaign row at the index is dropped |
| Session.Workspace.UpdateTestRecord | app_socios.py:414-423 | the row at the index is overwritten, column by column, with the recomputed record |
| Session.Workspace.UpdateScaleRecord | app_socios.py:402-412 | the same in a campaign table |
| Session.Workspace.AppendTestRecord | app_socios.py:1279-1284 | the recomputed record goes last in the testing table |
| Session.Workspace.AppendScaleRecord | app_socios.py:514-523 | the recomputed record goes last in the campaign table |
| Session.Workspace.AddFunnelItem | app_socios.py:425-440 | the offer becomes the result of adding the item, with its outcome, and stays valid |
| Session.Workspace.AddTestAd | app_socios.py:442-449 | the ads become the result of the add, with its outcome |
| Session.Workspace.ToggleAd | app_socios.py:451-456 | the ads are toggled |
| Session.Workspace.ToggleFunnelItem | app_socios.py:458-461 | the funnel item is toggled, and the offer stays valid |
| Session.Workspace.ToggleCampaign | app_socios.py:463-467 | the campaign is toggled |
| Session.Workspace.ToggleComponent | app_socios.py:469-475 | the campaign's component is toggled |
| Session.Workspace.CreateCampaign | app_socios.py:477-500 | the new campaign is stored under its id |
| Session.Workspace.AddComponent | app_socios.py:502-512 | an active component goes last in the campaign's list |
| Reports.Tagged | app_socios.py:872-876 | every record of an offer is tagged with the offer's name and commission, in order |
| Reports.CampaignRows | app_socios.py:878-883 | every row of the campaign tables carries the offer's name and commission |
| Reports.OfferRows | app_socios.py:869-883 | every row of an offer carries its name and commission |
| Reports.OfferRowsHold | app_socios.py:872-883 | the offer's testing rows come first, in order, and every row of every campaign table is among the offer's rows |
| Reports.CampaignRowsHold | app_socios.py:878-883 | every row of every campaign table is among the campaign rows |
| Reports.DashboardRows | app_socios.py:869-883 | the dashboard rows are drawn from offers in testing or validated, with that offer's name and commission, and hold every row of every such offer |
| Reports.DashboardRowsAppend | app_socios.py:869-883 | the rows of two offer lists are those of the first followed by those of the second: offer order is kept |
| Reports.DashboardKpis | app_socios.py:902-909 | no contract of its own; `DashboardNetProfit`, `FullRangeKeepsKpis` and `ByOfferConserves` state what its figures mean |
| Reports.DashboardNetProfit | app_socios.py:902-909 | the net profit shown is the sum of the stored net profits when every row used its offer's current commission; net ROAS times positive spend is revenue less commissions |
| Reports.FullRangeKeepsKpis | app_socios.py:893-897 | the default range, first to last date, leaves the KPIs unchanged |
| Reports.BucketsOf | app_socios.py:924 | one breakdown line per key, in key order |
| Reports.BucketsAddUp | app_socios.py:924 | the breakdown lines add up to the grouped totals |
| Reports.ByOffer | app_socios.py:924 | no contract of its own; `ByOfferConserves` states that its lines add up to the dashboard totals |
| Reports.ByOfferConserves | app_socios.py:924 | the per-offer table adds up to the dashboard's spend, revenue and net profit |
| Reports.DayLabelsDistinct | app_socios.py:931-932 | the seven categories are distinct and share no name with the English day names |
| Reports.WeekdayTableAsWritten | app_socios.py:931-934 | seven lines, one per category, as written |
| Reports.WeekdayTableAsWrittenEmpty | app_socios.py:931-934 | as written, every line is 0 |
| Reports.WeekdayTableMissesSpend | app_socios.py:931-934 | a Monday with a spend of 100: the dashboard counts 100, and the weekday table as written shows 0 |
| Reports.WeekdayTable | app_socios.py:932-934 | corrected: seven lines keyed Monday to Sunday |
| Reports.WeekdayTableConserves | app_socios.py:932-934 | corrected: the lines add up to the dashboard spend and the stored net profit |
| Reports.WeekdayTableBuckets | app_socios.py:931-933 | corrected: each row lands on the line of its weekday |
| Reports.OfferLab | app_socios.py:1042-1066 | the testing figures come from the testing table and the scale figures from all campaign tables; the combined figures are those of all the records together |
| Reports.PhaseOf | app_socios.py:1045-1047 | no contract of its own; the figures of one phase from its totals |
| Reports.PhaseOfRecords | app_socios.py:1042-1047 | no contract of its own; `PhasesOfRecordsCombine` states that figures of two tables combine |
| Reports.ScaleSums | app_socios.py:1051-1058 | the `+=` loop over campaigns totals spend, revenue and principal sales over all campaign records |
| Reports.PhasesOfRecordsCombine | app_socios.py:1059-1066 | the figures of two sets of records combine into the figures of their union |
| Reports.FirstDay | app_socios.py:1067 | the earliest date of a non-empty table |
| Reports.LastDay | app_socios.py:1067 | the latest date |
| Reports.DaysElapsed | app_socios.py:1067-1073 | 0 for an empty table; otherwise at least 1, every record's day lies inside the span, and some record falls on its last day, so the count is last day less first day plus one |
| Intelligence.RatingStars | app_socios.py:218-219 | five characters for a rating 0..5; a repeat count below 1 gives nothing |
| Intelligence.RatingStarsLayout | app_socios.py:218-219 | `rating` full stars, then empty ones |
| Intelligence.WithoutId | app_socios.py:213-214 | the list comprehension keeps each entry with another id as many times as the vault holds it, and drops every entry with the id |
| Intelligence.WithoutIdAppend | app_socios.py:213-214 | deleting from a concatenation deletes from each part in turn, so order is kept |
| Intelligence.DeleteTwice | app_socios.py:213-214 | deleting twice is deleting once |
| Intelligence.WithoutAbsentId | app_socios.py:213-214 | deleting an unknown id changes nothing |
| Intelligence.FirstWithId | app_socios.py:222-223 | the first entry with the id, or none iff no entry has it |
| Intelligence.Shows | app_socios.py:741-747 | no contract of its own: an entry passes the archive, type and status filters, an empty choice letting everything through |
| Intelligence.Visible | app_socios.py:741-747 | an entry is shown iff it is in the vault and passes the archive, type and status filters, as many times as the vault holds it |
| Intelligence.VisibleAppend | app_socios.py:741-747 | filtering a concatenation filters each part in turn, so vault order is kept |
| Intelligence.NoFilterShowsAll | app_socios.py:741-747 | with no filter the whole vault is shown |
| Intelligence.Vault.InsertFront | app_socios.py:714 | a new entry goes first |
| Intelligence.Vault.Delete | app_socios.py:213-216 | the vault loses exactly the entries with the id |
| Intelligence.Vault.Find | app_socios.py:222-223 | the search loop finds the first entry with the id |
| Intelligence.Vault.Update | app_socios.py:221-227 | the first entry with the id is replaced; otherwise nothing changes |
| Intelligence.Vault.UpdateStatus | app_socios.py:229-235 | the first entry with the id gets the status, and none of its other fields change |

## Findings

| source | as written | input that shows it | evidently intended | confidence | as-written member | corrected member |
|---|---|---|---|---|---|---|
| app_socios.py:931-934 | rows are labelled with `dt.day_name()`, which gives English names when called without a `locale` argument whatever LC_TIME is set to at app_socios.py:20, but bucketed into a categorical of Spanish day names, so every label falls outside the categories and each of the seven lines sums to 0 | one record on Monday 2024-01-01 with a spend of 100 | each row counted under the Spanish name of its weekday, Monday to Sunday, the lines adding up to the filtered totals | high; not executed | Reports.WeekdayTableMissesSpend | Reports.WeekdayTableConserves |

## Left out

- The Streamlit pages, forms, charts and messages, and session flags such as the current view: presentation only.
- Firebase login and the Firestore save and load: external services. Each operation's save call is left out.
- `df_to_json` and `json_to_df`: serialisation wrappers.
- Ids and dates from the clock (offer, campaign and vault ids, and the vault registration date): they are parameters.
- `update_plantilla` (app_socios.py:277-282): template editing only stores user text.
- The status backfill of old vault entries (app_socios.py:666-668): every modelled entry already has a status.
- Floating-point rounding and NaN: money is exact `real`, and an absent sales value counts as 0. The `pd.notna` test of app_socios.py:294 is therefore always true.
- Locale-formatted month labels (app_socios.py:1637-1641): the month bucket is the (year, month) pair.
- The order of grouped rows: pandas sorts group keys, while the model lists them in order of first appearance. The sums proved do not depend on that order.
- The "last 7 distinct dates" consistency view (app_socios.py:1413-1417): display only.
- Session.Workspace.UpdateTestRecord, Session.Workspace.UpdateScaleRecord, Session.Workspace.DeleteTestRecord, Session.Workspace.DeleteScaleRecord: require the index to be in range. pandas `.loc` would enlarge the table, and `drop` would raise.
- Session.Workspace.AppendTestRecord: requires the record's sales aliases to be among the active funnel items, as the form that builds the record guarantees (app_socios.py:1270-1280).
- Session.Workspace.ToggleFunnelItem, Session.Workspace.ToggleCampaign, Session.Workspace.ToggleComponent, Session.Workspace.AddComponent, Session.Workspace.AppendScaleRecord, Session.Workspace.DeleteScaleRecord, Session.Workspace.UpdateScaleRecord: require the funnel key or campaign id to exist. The program raises `KeyError` otherwise.
- Session.Workspace.SetStatus, Session.Workspace.SetFinancials and the other per-offer methods: require the offer id to exist, as the pages that call them guarantee.
- Classifier.SortByDate: is a stable insertion sort. pandas' default quicksort may order records of the same date differently, which can change the streak when one date holds several records of an ad.
- Classifier.AnalyzeAds: takes the commission of the selected offer as `Option`, `None` when no offer is selected.
- Offers.WithFunnelItem: the redundant inner membership test of app_socios.py:438 is subsumed by the outer one of line 436 and is not modelled separately.
