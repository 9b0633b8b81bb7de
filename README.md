# Oath: a verified model of the stores and screen logic

Oath is a React Native planner. Its tasks ("items"), its idea inbox
("sparks") and its settings live in three small module-level stores. Each
store replaces its data with a new value and then calls `emit`, which runs
every subscribed listener. Around the stores sit a few pieces of pure screen
logic:

- the date helpers;
- the "HH:MM" input normalisers of the settings screens;
- the segment labels and patches the settings screens pass to `set`;
- the pair of inline quiet-hours editors;
- the capture field's submit guard;
- the theme provider's light/dark choice;
- the dock's active-tab and press logic.

The model follows the program's structure, one module per concern:

| module | file | models |
|---|---|---|
| `Wrappers` | wrappers.dfy | optional values (`x?: T`, `??`) |
| `Seqs` | seqs.dfy | `Array.prototype.filter` and its laws |
| `Text` | text.dfy | `trim`, ASCII case, the digits of a string, `parseInt` on digits, `String(n)`, `padStart(2, "0")` |
| `Notify` | notify.dfy | `emit`: one log entry per emit, tagged with the store that emitted |
| `Items` | items_store.dfy | the items store (`addItem`, `updateItem`, `deleteItem`) as a class |
| `Sparks` | sparks_store.dfy | the sparks store (`convertSpark`, `convertMany`, `archiveSpark`) as a class over the items store |
| `SettingsStore` | settings_store.dfy | the settings record, its initial value and `set` as a class |
| `DateTime` | datetime.dfy | `startOfDay`, `sameDay`, `formatHM`, `yyyyMmDd` |
| `TimeInput` | time_input.dfy | both "HH:MM" normalisers: digit stripping and the pattern match |
| `SettingsScreen` | settings_screen.dfy | labels, setting patches, the quiet-hours summary, and the quiet-hours editor as a class |
| `Capture` | capture.dfy | the capture field's `text` and `submit` as a class |
| `Theme` | theme.dfy | the provider's `chosen` mode |
| `Dock` | dock.dfy | `TABS`, the overlay's active index, the tab bar's press guard |

Several revisions of the app carry the same code. The model states each
piece once, and each table row cites one of the copies:

- **Capture submit.** `submit` is identical in CaptureInput.tsx:21-26 and
  in the three CaptureBar.tsx copies (7th 16-21, 2nd 22-27, 1st 16-21).
- **Theme choice.** `chosen` is identical in both ThemeProvider.tsx copies.
- **Digit-stripping normaliser.** It is identical in the 7th and 3rd
  `normalizeHHMM` and the 2nd `TimeField.normalize`.
- **Quiet-hours editor.** The 7th and 3rd screens handle it identically.
- **Sparks store.** The 1st revision's `convertSpark` and `archiveSpark`
  are those of the 3rd, which adds `convertMany`.

Stores are classes whose fields the methods reassign. The three stores
emit into one shared `Notify.EmitLog`, so the contracts also pin down the
order of notifications across stores.

Random ids are parameters. The id `addItem` draws is `newId`, and the
ids `convertMany`'s adds draw are `newIds`.

## Model

| member | source | states |
|---|---|---|
| `Seqs.Filter` | OathV2-7th-main/OathV2-5th-main/OathV2-3rd-main/frontend/src/stores/itemsStore.ts:69 | the filter is no longer than its input; every element kept is in the input and passes; every passing element of the input is kept |
| `Seqs.FilterAppend` | OathV2-7th-main/OathV2-5th-main/OathV2-3rd-main/frontend/src/stores/sparksStore.ts:38 | filtering a concatenation is concatenating the filters, so kept elements stay in order |
| `Seqs.FilterKeepsAll` | OathV2-7th-main/OathV2-5th-main/OathV2-3rd-main/frontend/src/stores/sparksStore.ts:52 | a filter every element passes returns its input |
| `Seqs.FilterCongruent` | OathV2-7th-main/OathV2-5th-main/OathV2-3rd-main/frontend/src/stores/sparksStore.ts:44-45 | filters whose predicates agree on the elements present are equal |
| `Seqs.FilterKeepsNone` | OathV2-7th-main/OathV2-5th-main/OathV2-3rd-main/OathV2-2nd-main/OathV2-1st-main/frontend/src/stores/sparksStore.ts:39 | a filter no element passes returns the empty list |
| `Seqs.FilterIdempotent` | OathV2-7th-main/OathV2-5th-main/OathV2-3rd-main/OathV2-2nd-main/OathV2-1st-main/frontend/src/stores/sparksStore.ts:44 | filtering twice with one predicate is filtering once |
| `Seqs.FilterPartition` | OathV2-7th-main/OathV2-5th-main/OathV2-3rd-main/frontend/src/stores/sparksStore.ts:45-47 | a predicate and its complement split the list: the two filters together hold each element exactly as often as the list |
| `Seqs.FilterKeepsDistinct` | OathV2-7th-main/OathV2-5th-main/OathV2-3rd-main/frontend/src/stores/itemsStore.ts:69 | when the keys of a list are pairwise distinct, the keys of any filter of it are too |
| `Text.TrimStartSuffix` | OathV2-7th-main/OathV2-5th-main/OathV2-3rd-main/frontend/src/stores/itemsStore.ts:51 | the start-trimmed text is a suffix whose dropped prefix is whitespace and whose first character is not |
| `Text.TrimEndPrefix` | OathV2-7th-main/OathV2-5th-main/OathV2-3rd-main/OathV2-2nd-main/OathV2-1st-main/frontend/src/stores/sparksStore.ts:38 | the end-trimmed text is a prefix whose dropped suffix is whitespace and whose last character is not |
| `Text.TrimTrims` | frontend/src/components/CaptureInput.tsx:22-23 | `trim` leaves no whitespace at either end, and gives "" exactly when the text is blank |
| `Text.LeadingWhitespace` | OathV2-7th-main/frontend/app/settings.tsx:55 | the count of leading whitespace is at most the length |
| `Text.TrimIsInfix` | OathV2-7th-main/frontend/src/components/CaptureBar.tsx:17 | the trimmed text is the slice of the text between its leading and trailing whitespace |
| `Text.TrimSlice` | OathV2-7th-main/OathV2-5th-main/OathV2-3rd-main/OathV2-2nd-main/frontend/src/components/CaptureBar.tsx:23 | the trimmed text is the slice that starts after the leading whitespace |
| `Text.TrimTail` | OathV2-7th-main/OathV2-5th-main/OathV2-3rd-main/OathV2-2nd-main/OathV2-1st-main/frontend/src/components/CaptureBar.tsx:17 | everything after the trimmed slice is whitespace |
| `Text.TrimOfTrimmed` | OathV2-7th-main/OathV2-5th-main/OathV2-3rd-main/frontend/app/settings.tsx:66 | a text with no whitespace at either end is its own trim |
| `Text.TrimIdempotent` | OathV2-7th-main/OathV2-5th-main/OathV2-3rd-main/OathV2-2nd-main/frontend/app/settings.tsx:27 | trimming twice is trimming once |
| `Text.ToLower` | OathV2-7th-main/OathV2-5th-main/OathV2-3rd-main/frontend/app/settings.tsx:243 | lower-casing keeps the length and lower-cases each ASCII letter in place |
| `Text.CapitalizeThenLower` | OathV2-7th-main/OathV2-5th-main/OathV2-3rd-main/OathV2-2nd-main/frontend/app/settings.tsx:166-167 | lower-casing undoes capitalising a lower-case word, whose shown form starts with a capital |
| `Text.DigitValue` | OathV2-7th-main/frontend/app/settings.tsx:16 | a digit's value is below 10 |
| `Text.DigitChar` | OathV2-7th-main/OathV2-5th-main/OathV2-3rd-main/OathV2-2nd-main/frontend/src/utils/datetime.ts:15 | the digit character of d is a digit whose value is d |
| `Text.Digits` | OathV2-7th-main/frontend/app/settings.tsx:13 | `replace(/[^0-9]/g, "")` leaves only digits and never lengthens the text |
| `Text.DigitsAppend` | OathV2-7th-main/OathV2-5th-main/OathV2-3rd-main/OathV2-2nd-main/frontend/app/settings.tsx:14 | the digits of a concatenation are the concatenated digits |
| `Text.DigitsOfDigits` | OathV2-7th-main/OathV2-5th-main/OathV2-3rd-main/frontend/app/settings.tsx:13 | an all-digit text is its own digit string |
| `Text.Pow10` | OathV2-7th-main/OathV2-5th-main/OathV2-3rd-main/frontend/app/settings.tsx:16 | powers of ten are positive |
| `Text.DecimalValue` | OathV2-7th-main/frontend/app/settings.tsx:15 | `parseInt` of k digits is below 10^k |
| `Text.NatToString` | OathV2-7th-main/OathV2-5th-main/OathV2-3rd-main/OathV2-2nd-main/frontend/src/utils/datetime.ts:14-16 | `String(n)` is a non-empty digit string without a leading zero (except "0") |
| `Text.DecimalRoundTrip` | OathV2-7th-main/OathV2-5th-main/OathV2-3rd-main/OathV2-2nd-main/frontend/src/utils/datetime.ts:23 | reading back `String(n)` gives n |
| `Text.NatToStringInjective` | OathV2-7th-main/OathV2-5th-main/OathV2-3rd-main/OathV2-2nd-main/frontend/src/utils/datetime.ts:24 | `String(n)` is one-to-one on naturals |
| `Text.IntToString` | OathV2-7th-main/OathV2-5th-main/OathV2-3rd-main/OathV2-2nd-main/frontend/src/utils/datetime.ts:22 | `String(y)` of an integer is non-empty |
| `Text.IntToStringInjective` | OathV2-7th-main/OathV2-5th-main/OathV2-3rd-main/OathV2-2nd-main/frontend/src/utils/datetime.ts:25 | `String(y)` is one-to-one on integers, negative years included |
| `Text.Pad2OfSmall` | OathV2-7th-main/OathV2-5th-main/OathV2-3rd-main/OathV2-2nd-main/frontend/src/utils/datetime.ts:15-16 | `String(n).padStart(2, "0")` for n < 100 is two digits that read back as n |
| `Text.TwoDigitsOfValue` | OathV2-7th-main/OathV2-5th-main/OathV2-3rd-main/OathV2-2nd-main/frontend/src/utils/datetime.ts:24 | any two digits are the padded text of their own value |
| `Notify.ItemsEmits` | OathV2-7th-main/OathV2-5th-main/OathV2-3rd-main/frontend/src/stores/sparksStore.ts:46 | n adds in a row log exactly n items-store emits |
| `Notify.EmitLog.Record` | OathV2-7th-main/OathV2-5th-main/OathV2-3rd-main/frontend/src/stores/itemsStore.ts:38 | one `emit` appends one entry to the log and changes nothing else |
| `Items.NewItemTitle` | OathV2-7th-main/OathV2-5th-main/OathV2-3rd-main/frontend/src/stores/itemsStore.ts:47-61 | `addItem` has no blank-title guard: a blank title gives an item titled ""; the title never has surrounding whitespace; a trimmed title is kept as is |
| `Items.NewItemDefaults` | OathV2-7th-main/OathV2-5th-main/OathV2-3rd-main/frontend/src/stores/itemsStore.ts:49-57 | `completed` is true exactly when `meta.completed` is true; with empty meta the item has subtitle "", datetime null, completed false, type "action" and no status |
| `Items.Updated` | OathV2-7th-main/OathV2-5th-main/OathV2-3rd-main/frontend/src/stores/itemsStore.ts:64 | `map` keeps the length and order; items with other ids are unchanged; matching items get the patch spread over them |
| `Items.ApplyPatchIdempotent` | OathV2-7th-main/OathV2-5th-main/OathV2-3rd-main/frontend/src/stores/itemsStore.ts:63-64 | spreading a patch twice is spreading it once |
| `Items.UpdateUnknownId` | OathV2-7th-main/OathV2-5th-main/OathV2-3rd-main/frontend/src/stores/itemsStore.ts:63-66 | updating an id no item has leaves the list as it was |
| `Items.UpdateTwice` | OathV2-7th-main/OathV2-5th-main/OathV2-3rd-main/frontend/src/stores/itemsStore.ts:65 | updating twice with the same id and patch is updating once, even when the patch changes the id |
| `Items.DeleteKeepsOthersInOrder` | OathV2-7th-main/OathV2-5th-main/OathV2-3rd-main/frontend/src/stores/itemsStore.ts:68-69 | delete keeps exactly the items with other ids, and distributes over concatenation, so their order is kept |
| `Items.DeleteTwice` | OathV2-7th-main/OathV2-5th-main/OathV2-3rd-main/frontend/src/stores/itemsStore.ts:70 | deleting twice is deleting once |
| `Items.DeleteUnknownId` | OathV2-7th-main/OathV2-5th-main/OathV2-3rd-main/frontend/src/stores/itemsStore.ts:68-71 | deleting an id no item has leaves the list as it was |
| `Items.AddFreshKeepsIdsUnique` | OathV2-7th-main/OathV2-5th-main/OathV2-3rd-main/frontend/src/stores/itemsStore.ts:48 | with an id no item has, adding keeps ids unique; the code itself does not check this |
| `Items.DeleteKeepsIdsUnique` | OathV2-7th-main/OathV2-5th-main/OathV2-3rd-main/frontend/src/stores/itemsStore.ts:69 | deleting keeps ids unique |
| `Items.ItemsStore.constructor` | OathV2-7th-main/OathV2-5th-main/OathV2-3rd-main/frontend/src/stores/itemsStore.ts:25 | the store starts from the given list and log |
| `Items.ItemsStore.AddItem` | OathV2-7th-main/OathV2-5th-main/OathV2-3rd-main/frontend/src/stores/itemsStore.ts:47-61 | the new list is the new item prepended to the old one, one longer; the returned id names the item at index 0; one items emit |
| `Items.ItemsStore.UpdateItem` | OathV2-7th-main/OathV2-5th-main/OathV2-3rd-main/frontend/src/stores/itemsStore.ts:63-66 | the list becomes the mapped list; an unknown id changes nothing but still emits once |
| `Items.ItemsStore.DeleteItem` | OathV2-7th-main/OathV2-5th-main/OathV2-3rd-main/frontend/src/stores/itemsStore.ts:68-71 | the list becomes the filtered list, with no item of that id left; an unknown id changes nothing but still emits once |
| `Sparks.FindIndex` | OathV2-7th-main/OathV2-5th-main/OathV2-3rd-main/frontend/src/stores/sparksStore.ts:35 | `find`: -1 when no spark has the id, otherwise the first position holding it |
| `Sparks.ConvertedItemFields` | OathV2-7th-main/OathV2-5th-main/OathV2-3rd-main/frontend/src/stores/sparksStore.ts:37 | a converted spark becomes an item with the drawn id, the trimmed spark title, its note or "" as subtitle, type "action", not completed and unscheduled |
| `Sparks.AddedAllShape` | OathV2-7th-main/OathV2-5th-main/OathV2-3rd-main/frontend/src/stores/sparksStore.ts:46 | after the `forEach` of adds, the new items sit on top in reverse store order, above the old items in their old order |
| `Sparks.BatchDependsOnlyOnListedIds` | OathV2-7th-main/OathV2-5th-main/OathV2-3rd-main/frontend/src/stores/sparksStore.ts:44-47 | only which ids are listed matters: argument order, duplicates and unknown ids change neither the batch nor the rest |
| `Sparks.BatchAndRemainingPartition` | OathV2-7th-main/OathV2-5th-main/OathV2-3rd-main/frontend/src/stores/sparksStore.ts:45 | every spark is either converted or kept, never both, none lost or duplicated |
| `Sparks.OneSparkWithId` | OathV2-7th-main/OathV2-5th-main/OathV2-3rd-main/OathV2-2nd-main/OathV2-1st-main/frontend/src/stores/sparksStore.ts:35 | with unique ids, a present id belongs to exactly one spark |
| `Sparks.RemoveOneOfUnique` | OathV2-7th-main/OathV2-5th-main/OathV2-3rd-main/OathV2-2nd-main/OathV2-1st-main/frontend/src/stores/sparksStore.ts:39 | with unique ids, removing a present id removes exactly one spark |
| `Sparks.SeedSparkIdsUnique` | OathV2-7th-main/OathV2-5th-main/OathV2-3rd-main/OathV2-2nd-main/OathV2-1st-main/frontend/src/stores/sparksStore.ts:14-23 | the seeded sparks have distinct ids |
| `Sparks.SparksStore.constructor` | OathV2-7th-main/OathV2-5th-main/OathV2-3rd-main/frontend/src/stores/sparksStore.ts:14-23 | the store starts from the given sparks, over the given items store |
| `Sparks.SparksStore.ConvertSpark` | OathV2-7th-main/OathV2-5th-main/OathV2-3rd-main/OathV2-2nd-main/OathV2-1st-main/frontend/src/stores/sparksStore.ts:34-41 | unknown id: neither store changes and nothing is emitted; otherwise one item from that spark is prepended, then the spark is filtered out, with logged emits [items, sparks] in that order; no spark with the id remains; with unique ids, the sum of the two store sizes is unchanged |
| `Sparks.SparksStore.ConvertMany` | OathV2-7th-main/OathV2-5th-main/OathV2-3rd-main/frontend/src/stores/sparksStore.ts:42-49 | an empty list changes nothing and emits nothing; otherwise the listed sparks are added in store order, one items emit each, and the unlisted sparks remain in order, followed by one sparks emit |
| `Sparks.SparksStore.AddConverted` | OathV2-7th-main/OathV2-5th-main/OathV2-3rd-main/frontend/src/stores/sparksStore.ts:46 | the `forEach` loop: the items list becomes the fold of prepends over the batch, with one items emit per spark |
| `Sparks.SparksStore.ArchiveSpark` | OathV2-7th-main/OathV2-5th-main/OathV2-3rd-main/frontend/src/stores/sparksStore.ts:51-54 | the matching sparks are removed, no item is created, and one sparks emit follows even for an unknown id |
| `Sparks.SparksStore.ConvertTwice` | OathV2-7th-main/OathV2-5th-main/OathV2-3rd-main/frontend/src/stores/sparksStore.ts:34-40 | converting one id twice in a row is converting it once: the second call finds nothing and does nothing |
| `SettingsStore.MergeEmpty` | OathV2-7th-main/OathV2-5th-main/OathV2-3rd-main/OathV2-2nd-main/OathV2-1st-main/frontend/src/stores/settingsStore.ts:44 | `set({})` leaves every field as it was |
| `SettingsStore.MergeIdempotent` | OathV2-7th-main/OathV2-5th-main/OathV2-3rd-main/OathV2-2nd-main/OathV2-1st-main/frontend/src/stores/settingsStore.ts:42-45 | spreading the same patch twice is spreading it once |
| `SettingsStore.MergeCompose` | OathV2-7th-main/OathV2-5th-main/OathV2-3rd-main/OathV2-2nd-main/OathV2-1st-main/frontend/src/stores/settingsStore.ts:40-46 | two spreads in a row equal one spread of the composed patch, where the later keys win |
| `SettingsStore.MergeCommutesWhenDisjoint` | OathV2-7th-main/OathV2-5th-main/OathV2-3rd-main/OathV2-2nd-main/OathV2-1st-main/frontend/src/stores/settingsStore.ts:3-17 | patches on disjoint keys can be applied in either order |
| `SettingsStore.InitialBankWithinMax` | OathV2-7th-main/OathV2-5th-main/OathV2-3rd-main/OathV2-2nd-main/OathV2-1st-main/frontend/src/stores/settingsStore.ts:31-32 | the initial bank is 40 of 40, within its maximum |
| `SettingsStore.MergeKeepsBank` | OathV2-7th-main/OathV2-5th-main/OathV2-3rd-main/OathV2-2nd-main/OathV2-1st-main/frontend/src/stores/settingsStore.ts:12-13 | a patch without bank keys keeps both bank fields, and so keeps the bound |
| `SettingsStore.SetDoesNotEnforceBank` | OathV2-7th-main/OathV2-5th-main/OathV2-3rd-main/OathV2-2nd-main/OathV2-1st-main/frontend/src/stores/settingsStore.ts:22-36 | `set` enforces no bound: a patch can raise the bank above its maximum |
| `SettingsStore.Store.constructor` | OathV2-7th-main/OathV2-5th-main/OathV2-3rd-main/OathV2-2nd-main/OathV2-1st-main/frontend/src/stores/settingsStore.ts:22-36 | the store starts with the initial record |
| `SettingsStore.Store.Set` | OathV2-7th-main/OathV2-5th-main/OathV2-3rd-main/OathV2-2nd-main/OathV2-1st-main/frontend/src/stores/settingsStore.ts:38-44 | the record becomes the patch spread over it, followed by exactly one settings emit, empty patch included |
| `SettingsStore.Store.SetTwice` | OathV2-7th-main/OathV2-5th-main/OathV2-3rd-main/OathV2-2nd-main/OathV2-1st-main/frontend/src/stores/settingsStore.ts:41-46 | two `set` calls equal one `set` of the composed patch, with two emits |
| `DateTime.StartOfDayProperties` | OathV2-7th-main/OathV2-5th-main/OathV2-3rd-main/OathV2-2nd-main/frontend/src/utils/datetime.ts:1-5 | `startOfDay` keeps year, month and day, zeroes hours, minutes, seconds and ms, is idempotent and stays on the same day |
| `DateTime.SameDayEquivalence` | OathV2-7th-main/OathV2-5th-main/OathV2-3rd-main/OathV2-2nd-main/frontend/src/utils/datetime.ts:6-12 | `sameDay` is reflexive, symmetric and transitive |
| `DateTime.SameDayIffSameStart` | OathV2-7th-main/OathV2-5th-main/OathV2-3rd-main/OathV2-2nd-main/frontend/src/utils/datetime.ts:7-11 | two dates are on the same day exactly when their `startOfDay` values are equal |
| `DateTime.Hour12Recovers` | OathV2-7th-main/OathV2-5th-main/OathV2-3rd-main/OathV2-2nd-main/frontend/src/utils/datetime.ts:17-18 | the 12-hour hour is in 1..12; the suffix is "PM" exactly when hours >= 12; hour and suffix give back the hour; 0 shows as 12 AM and 12 as 12 PM |
| `DateTime.Hour12Text` | OathV2-7th-main/OathV2-5th-main/OathV2-3rd-main/OathV2-2nd-main/frontend/src/utils/datetime.ts:18-19 | the 12-hour hour is written with one digit below 10 and two digits otherwise, reading back as that hour |
| `DateTime.Format24Shape` | OathV2-7th-main/OathV2-5th-main/OathV2-3rd-main/OathV2-2nd-main/frontend/src/utils/datetime.ts:13-16 | 24-hour text is "HH:MM": five characters, colon at index 2, two digits reading back as the hours and two as the minutes |
| `DateTime.Format24Injective` | OathV2-7th-main/OathV2-5th-main/OathV2-3rd-main/OathV2-2nd-main/frontend/src/utils/datetime.ts:16 | two 24-hour texts are equal exactly when hours and minutes are equal |
| `DateTime.Format12Shape` | OathV2-7th-main/OathV2-5th-main/OathV2-3rd-main/OathV2-2nd-main/frontend/src/utils/datetime.ts:14-19 | 12-hour text is the 1- or 2-digit hour reading back as the 12-hour hour, ":", the same two minute digits as in 24-hour mode, " ", then AM or PM |
| `DateTime.ClockParts` | OathV2-7th-main/OathV2-5th-main/OathV2-3rd-main/OathV2-2nd-main/frontend/src/utils/datetime.ts:19 | in hour + ":" + minutes + " " + suffix with two-digit minutes, each part sits at a fixed offset after the hour and can be cut back out |
| `DateTime.YmdShape` | OathV2-7th-main/OathV2-5th-main/OathV2-3rd-main/OathV2-2nd-main/frontend/src/utils/datetime.ts:21-26 | the key is the year's text, "-", two digits reading back as month + 1, "-", two digits reading back as the day |
| `DateTime.YmdSplit` | OathV2-7th-main/OathV2-5th-main/OathV2-3rd-main/OathV2-2nd-main/frontend/src/utils/datetime.ts:21-25 | the key is the year's text followed by a six-character "-MM-DD" tail of two two-digit fields |
| `DateTime.DayTailDetermines` | OathV2-7th-main/OathV2-5th-main/OathV2-3rd-main/OathV2-2nd-main/frontend/src/utils/datetime.ts:23-25 | equal "-MM-DD" tails mean equal month and day |
| `DateTime.YmdKeyIffSameDay` | OathV2-7th-main/OathV2-5th-main/OathV2-3rd-main/OathV2-2nd-main/frontend/src/utils/datetime.ts:21-25 | two dates have the same key exactly when `sameDay` holds |
| `DateTime.YmdKeyDeterminesDay` | OathV2-7th-main/OathV2-5th-main/OathV2-3rd-main/OathV2-2nd-main/frontend/src/utils/datetime.ts:22-24 | the key determines year, month and day |
| `TimeInput.FormatClockReadsBack` | OathV2-7th-main/frontend/app/settings.tsx:17 | an hour and minute in range are formatted as a valid "HH:MM" that reads back as them |
| `TimeInput.ClockIsFormatted` | OathV2-7th-main/OathV2-5th-main/OathV2-3rd-main/frontend/app/settings.tsx:17 | every valid "HH:MM" is the formatting of its own hour and minute |
| `TimeInput.NormalizeDigitsResult` | OathV2-7th-main/frontend/app/settings.tsx:12-18 | fewer than 3 digits keep the current value; otherwise a valid "HH:MM" whose hour is min(23, all digits but the last two) and whose minute is min(59, the last two) |
| `TimeInput.NormalizeDigitsIgnoresOthers` | OathV2-7th-main/OathV2-5th-main/OathV2-3rd-main/frontend/app/settings.tsx:13 | non-digit characters make no difference |
| `TimeInput.DigitsOfNone` | OathV2-7th-main/OathV2-5th-main/OathV2-3rd-main/OathV2-2nd-main/frontend/app/settings.tsx:14 | a text without digits has an empty digit string |
| `TimeInput.TrimKeepsDigits` | OathV2-7th-main/OathV2-5th-main/OathV2-3rd-main/frontend/app/settings.tsx:66 | trimming the input first removes no digit |
| `TimeInput.NormalizeDigitsOfTrim` | OathV2-7th-main/OathV2-5th-main/OathV2-3rd-main/frontend/app/settings.tsx:66 | normalising the trimmed input gives the same result as normalising the raw input |
| `TimeInput.NormalizeDigitsFixesClock` | OathV2-7th-main/OathV2-5th-main/OathV2-3rd-main/frontend/app/settings.tsx:12-18 | an already valid "HH:MM" normalises to itself |
| `TimeInput.NormalizeDigitsExample` | OathV2-7th-main/OathV2-5th-main/OathV2-3rd-main/OathV2-2nd-main/frontend/app/settings.tsx:12-19 | "930" normalises to "09:30" |
| `TimeInput.NineThirty` | OathV2-7th-main/OathV2-5th-main/OathV2-3rd-main/frontend/app/settings.tsx:14-16 | "9" and "30" read as 9 and 30, and 9:30 is written "09:30" |
| `TimeInput.MatchHHMM` | OathV2-7th-main/OathV2-5th-main/OathV2-3rd-main/OathV2-2nd-main/OathV2-1st-main/frontend/app/settings.tsx:18 | a match has a 1- or 2-digit hour group and a 2-digit minute group |
| `TimeInput.MatchSound` | OathV2-7th-main/OathV2-5th-main/OathV2-3rd-main/OathV2-2nd-main/OathV2-1st-main/frontend/app/settings.tsx:18-19 | a matched text is the hour group, an optional ":", and the minute group |
| `TimeInput.MatchComplete` | OathV2-7th-main/OathV2-5th-main/OathV2-3rd-main/OathV2-2nd-main/OathV2-1st-main/frontend/app/settings.tsx:17-18 | every text of 1-2 digits, an optional ":", and 2 digits matches, with exactly those groups |
| `TimeInput.NormalizePatternResult` | OathV2-7th-main/OathV2-5th-main/OathV2-3rd-main/OathV2-2nd-main/OathV2-1st-main/frontend/app/settings.tsx:17-23 | a non-match keeps the current value; a match gives a valid "HH:MM" of the groups' values capped at 23 and 59 |
| `TimeInput.PatternAgreesWithDigits` | OathV2-7th-main/OathV2-5th-main/OathV2-3rd-main/OathV2-2nd-main/OathV2-1st-main/frontend/app/settings.tsx:20-22 | on every text the pattern accepts, the two normalisers agree |
| `TimeInput.NormalizePatternExamples` | OathV2-7th-main/OathV2-5th-main/OathV2-3rd-main/OathV2-2nd-main/OathV2-1st-main/frontend/app/settings.tsx:19-22 | "9:30" and "930" both give "09:30"; "12345" keeps the current value |
| `SettingsScreen.TimeFormatRoundTrip` | OathV2-7th-main/frontend/app/settings.tsx:116 | the 12h/24h label and the choice are mutual inverses on the two segments |
| `SettingsScreen.FirstDayRoundTrip` | OathV2-7th-main/frontend/app/settings.tsx:121 | the Sun/Mon label and the choice are mutual inverses on the two segments |
| `SettingsScreen.ThemeRoundTrip` | OathV2-7th-main/frontend/app/settings.tsx:128 | lower-casing the capitalised label gives back any non-empty lower-case theme |
| `SettingsScreen.ThemeSegmentsRoundTrip` | OathV2-7th-main/OathV2-5th-main/OathV2-3rd-main/frontend/app/settings.tsx:240-244 | system/light/dark show as System/Light/Dark, and choosing a segment gives back its name |
| `SettingsScreen.SelectedSegmentChangesNothing` | OathV2-7th-main/OathV2-5th-main/OathV2-3rd-main/OathV2-2nd-main/frontend/app/settings.tsx:147-168 | pressing the segment already shown changes no setting |
| `SettingsScreen.TopUpKeepsBankBound` | OathV2-7th-main/OathV2-5th-main/OathV2-3rd-main/OathV2-2nd-main/frontend/app/settings.tsx:118 | a top-up raises the maximum by exactly 100 and never leaves the bank above it; a bank within bounds grows by exactly 100; nothing else changes |
| `SettingsScreen.PlanCycle` | OathV2-7th-main/OathV2-5th-main/OathV2-3rd-main/OathV2-2nd-main/frontend/app/settings.tsx:125 | Free, Pro, Elite cycle with period exactly 3 |
| `SettingsScreen.ThreePlanPresses` | OathV2-7th-main/OathV2-5th-main/OathV2-3rd-main/OathV2-2nd-main/OathV2-1st-main/frontend/app/settings.tsx:133-136 | three "Change Plan" presses bring the settings back |
| `SettingsScreen.DefaultTimeTouchesOnlySlot` | OathV2-7th-main/OathV2-5th-main/OathV2-3rd-main/OathV2-2nd-main/frontend/app/settings.tsx:138-140 | editing one default time sets that slot and keeps the other slots and every other setting |
| `SettingsScreen.ToggleQuietTwice` | OathV2-7th-main/OathV2-5th-main/OathV2-3rd-main/frontend/app/settings.tsx:145 | the quiet-hours button flips only the flag; two presses restore the settings |
| `SettingsScreen.QuietSummaryShows` | OathV2-7th-main/frontend/app/settings.tsx:96 | the summary is "Off" exactly when quiet hours are disabled, else "On · " then the start, "–", and the end |
| `SettingsScreen.QuietHoursEditor.constructor` | OathV2-7th-main/frontend/app/settings.tsx:25-28 | both editors closed, drafts loaded from the saved times |
| `SettingsScreen.QuietHoursEditor.PressStart` | OathV2-7th-main/OathV2-5th-main/OathV2-3rd-main/frontend/app/settings.tsx:159-163 | pressing Start reloads its draft, toggles its editor and closes End; at most one editor is open |
| `SettingsScreen.QuietHoursEditor.PressEnd` | OathV2-7th-main/OathV2-5th-main/OathV2-3rd-main/frontend/app/settings.tsx:180-184 | pressing End reloads its draft, toggles its editor and closes Start; at most one editor is open |
| `SettingsScreen.QuietHoursEditor.EndEditingStart` | OathV2-7th-main/OathV2-5th-main/OathV2-3rd-main/frontend/app/settings.tsx:62-66 | the Start draft becomes the normalised input (trimming irrelevant): unchanged or a valid "HH:MM"; flags untouched |
| `SettingsScreen.QuietHoursEditor.EndEditingEnd` | OathV2-7th-main/frontend/app/settings.tsx:55 | the End draft becomes the normalised input: unchanged or a valid "HH:MM"; flags untouched |
| `SettingsScreen.QuietHoursEditor.SaveStart` | OathV2-7th-main/OathV2-5th-main/OathV2-3rd-main/frontend/app/settings.tsx:170-173 | Save writes the Start draft, and only it, with one settings emit, then closes the Start editor |
| `SettingsScreen.QuietHoursEditor.SaveEnd` | OathV2-7th-main/frontend/app/settings.tsx:107 | Save writes the End draft, and only it, with one settings emit, then closes the End editor |
| `SettingsScreen.QuietHoursEditor.CancelStart` | OathV2-7th-main/OathV2-5th-main/OathV2-3rd-main/frontend/app/settings.tsx:169 | Cancel closes the Start editor and writes nothing |
| `SettingsScreen.QuietHoursEditor.CancelEnd` | OathV2-7th-main/OathV2-5th-main/OathV2-3rd-main/frontend/app/settings.tsx:190 | Cancel closes the End editor and writes nothing |
| `Capture.CaptureField.constructor` | frontend/src/components/CaptureInput.tsx:19 | the field starts empty, with nothing handed off |
| `Capture.CaptureField.Type` | frontend/src/components/CaptureInput.tsx:48 | typing replaces the text |
| `Capture.CaptureField.Submit` | frontend/src/components/CaptureInput.tsx:21-26 | blank text: nothing is handed off and the text stays; otherwise the trimmed text is handed off exactly once, is non-empty with no surrounding whitespace, and the field is cleared |
| `Capture.CaptureField.SubmitTwice` | OathV2-7th-main/frontend/src/components/CaptureBar.tsx:16-21 | an immediate second submit does nothing |
| `Capture.CapturedTitleKept` | OathV2-7th-main/OathV2-5th-main/OathV2-3rd-main/frontend/src/stores/itemsStore.ts:51 | a handed-off text becomes an item with exactly that non-empty title |
| `Capture.SubmittedTextMakesTitledItem` | OathV2-7th-main/OathV2-5th-main/OathV2-3rd-main/OathV2-2nd-main/frontend/src/components/CaptureBar.tsx:22-27 | a submitted non-blank text becomes an item titled with the trimmed text, never "" |
| `Theme.ChosenModeDarkIff` | frontend/src/design/ThemeProvider.tsx:12-15 | the mode is dark exactly when the theme is "dark", or "system" on a dark device; "light" always gives light |
| `Theme.DeviceMattersOnlyForSystem` | OathV2-7th-main/OathV2-5th-main/OathV2-3rd-main/frontend/src/design/ThemeProvider.tsx:17-20 | forced themes ignore the device |
| `Theme.SystemFollowsDevice` | OathV2-7th-main/OathV2-5th-main/OathV2-3rd-main/frontend/src/design/ThemeProvider.tsx:18-19 | under "system", a dark device gives dark; a light device, or none, gives light |
| `Dock.FindPrefixFrom` | frontend/src/components/EmeraldDock.tsx:149 | `findIndex`: the first tab whose href starts the path, or -1 when none does |
| `Dock.ActiveIndex` | frontend/src/components/EmeraldDock.tsx:148-151 | the overlay's index is always a valid tab position |
| `Dock.FirstHrefStartsAll` | frontend/src/components/EmeraldDock.tsx:19-24 | "/(tabs)" starts every href in the table |
| `Dock.StartsWithTransitive` | frontend/src/components/EmeraldDock.tsx:20-23 | a prefix of a prefix is a prefix |
| `Dock.ActiveIndexAlwaysFirst` | frontend/src/components/EmeraldDock.tsx:145-151 | the overlay highlights the first tab for every path, absent or not |
| `Dock.TabPressGuard` | frontend/src/components/EmeraldDock.tsx:134-138 | a press navigates exactly when it is not on the focused tab, and then to that tab's route; pressing the focused tab does nothing |
| `Dock.OverlayPress` | frontend/src/components/EmeraldDock.tsx:158 | the overlay always pushes the pressed tab's href, which lies under "/(tabs)" |

## Left out

- Listeners and `useSyncExternalStore` subscription: each `emit` is one log entry. Who is subscribed, and what the callbacks do, are not modelled.
- `Math.random` ids: `addItem`'s id and `convertMany`'s ids are parameters. The code does not check them, so uniqueness is a lemma hypothesis (`Items.AddFreshKeepsIdsUnique`) rather than a precondition.
- The seven seed items of the items store: their datetimes come from the clock (`isoAt`). The store instead starts from a given list.
- `Sparks.SparksStore.ConvertMany`: a `null` or `undefined` id list (`!ids?.length`) is not modelled, only lists.
- Patch keys given explicitly as `undefined`: a patch key is either absent or holds a value. For an item's `datetime`, an absent key and `null` are one case, which every reader treats alike.
- An item's `type` field is named `itemType`, because `type` is a keyword.
- JS `Date`: time zones, daylight saving, calendar validity (day 31 of February) and the millisecond clock. A date is its local components, and `startOfDay` works on them.
- Case mapping is ASCII only, which covers the fixed theme names.
- `trim` uses the ECMAScript whitespace and line-terminator set over single characters.
- `parseInt` is exact. JS loses precision beyond 2^53, but every such hour is above 23 and is capped to 23 either way.
- The 7th screen's quiet-hours `Switch` and the push, SMS and intensity controls are single-key `set` calls. They are covered by `SettingsStore.Store.Set` and are not named separately.
- The quiet-hours editor handlers are reachable only while quiet hours are on and, for Save/Cancel/end-of-editing, while that editor is open. The model lets them run at any time.
- The theme provider's `scheme` prop is unused, so `Theme.ChosenMode` has no such parameter.
- Navigation effects (`navigation.navigate`, `router.push`) are returned as values.
- All rendering, layout and animation: the JSX, the Segmented control, the bank bar's floating-point fill, `isDarkFromHex`, and the dock geometry.
