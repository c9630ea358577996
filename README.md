# Moments journal: a verified model of its storage and state core

The app is a React Native journal of intimate "moments". Each moment has a title, a place, a companion and three ratings. It also holds two tag lists, optional notes and a "to renew" answer. This project models the application core in Dafny and proves what that core promises:

- **`DatabaseService`** over an SQLite `moments` table. It covers the initialization guard, the CHECK constraints, the list/lookup/insert/update/delete statements, and the statistics query. The update statement's SET list is built field by field, as the service builds it.
- **The moments store.** This is the in-memory cache the screens render. Every mutation delegates to the service and then reloads. Failures leave a message and keep the stale list.
- **The settings store.** It holds the dark-mode flag, persisted as JSON text under `@moments_theme_mode`.
- **The add-moment screen's handlers.** These are tag toggling, adding a typed tag, and turning the form into the record to insert.
- **The components' decisions:**
  - the selection cap of `SuggestionChips`;
  - the tag preview and location icon of `MomentCard`;
  - the press gate and filled-star rule of `StarRating`.

Modules:

| module | file | content |
|---|---|---|
| `Wrappers` | wrappers.dfy | `Option`, `Result` |
| `Text` | text.dfy | ECMAScript `trim()`, code-point string order |
| `Sorting` | sorting.dfy | an insertion sort by a total preorder |
| `Json` | json.dfy | `JSON.stringify`/`JSON.parse` of booleans and string arrays |
| `Schema` | schema.dfy | the row, insert and patch types, CHECKs, the SET-list builder's meaning |
| `Queries` | queries.dfy | the SELECTs' meaning: ordering, lookup, delete, AVG, GROUP BY |
| `Database` | database.dfy | the `DatabaseService` class |
| `MomentsStore` | moments_store.dfy | the moments cache (`MomentsState` class) |
| `SettingsStore` | settings_store.dfy | AsyncStorage and the settings state (classes) |
| `AddMoment` | add_moment.dfy | the add-moment form and its handlers |
| `SuggestionChips`, `MomentCard`, `StarRating` | suggestion_chips.dfy, moment_card.dfy, star_rating.dfy | the components' logic |

How the state is modelled:

- **The database engine's state.** It is four fields of `DatabaseService`:
  - `connected` (`this.db !== null`);
  - `tableReady` (the file holds the table);
  - `rows` (the table in rowid order);
  - `nextId` (one above the AUTOINCREMENT counter).
- **Engine faults.** An I/O failure, a locked file and the like enter every operation as a `fault: Option<string>` parameter. `None` means the statement runs normally.
- **The class invariant `Valid()`.** It says:
  - ids increase and stay below the counter;
  - every stored row passes every CHECK;
  - a file without the table holds no rows.

  Every method preserves it.
- **Observable updates in the moments store.** Each `set` of the store is recorded in a ghost `published` sequence, so the contracts state the loading and error states the screens are shown, in order.

Behaviour of the source worth noting:

- `addMoment` does no validation of its own. The table's CHECK constraints reject a bad row (the first failing column in declaration order). No id is consumed.
- `updateMoment` on an id with no row is not an error. The UPDATE matches nothing and the call succeeds. There is no "not found" failure. An empty patch returns before any statement runs, so it succeeds even when the table is missing. A rewritten row must pass the CHECKs.
- `toggleTheme` flips the in-memory mode only after `setItem` succeeded. A failed write leaves both the mode and the storage as they were, so the two never diverge (`SettingsStore.SettingsState.ToggleTheme`).
- `handleSave` applies the `|| 'Autre'` fallback to any empty location, not only to an empty custom location.
- `getStats` does not say how locations with equal counts are ordered. `Queries.IsTopLocations` states what any order must satisfy.

## Model

| member | source | states |
|---|---|---|
| Schema.CheckViolation | services/database.ts:44-50 | none iff every CHECK holds; otherwise the first rejecting column in declaration order: `pleasureRating` iff that rating is outside 1..10, `comfortRating` iff pleasure passes and comfort fails, `audacityRating` iff both pass and audacity fails, `toRenew` iff all ratings pass and the renew value is not allowed |
| Schema.RowValid | services/database.ts:44-50 | a row passes every CHECK iff its three ratings are in 1..10 and its renew value is NULL, `'yes'` or `'no'` |
| Schema.NullIfEmpty | services/database.ts:92-93 | `x \|\| null` on an optional text: NULL exactly for an absent or empty value, otherwise the value |
| Schema.NewRow | services/database.ts:78-96 | the inserted row carries the given id and timestamp, with empty notes and renew values stored as NULL |
| Schema.NewRowKeepsDraft | services/database.ts:78-96 | reading back an inserted row gives the input up to NULL normalisation, and exactly the input when its notes are not empty and its renew value is allowed |
| Schema.NewRowValidIff | services/database.ts:44-50 | an inserted row passes the CHECKs iff the three ratings are in 1..10 and the renew value is yes, no, absent or empty |
| Schema.ColumnIndex | services/database.ts:106-153 | each assignment's column has a position among the twelve tests |
| Schema.SetClauseNamesColumn | services/database.ts:106-153 | every pushed clause is its column's name followed by ` = ?` |
| Schema.Fields | services/database.ts:106-153 | the twelve field tests, one position each |
| Schema.FieldsPositioned | services/database.ts:106-153 | the entry at each position is that position's column |
| Schema.FieldsDefines | services/database.ts:106-153 | a position holds an assignment iff the patch's property is not `undefined` |
| Schema.SetListShape | services/database.ts:104-155 | the SET list names each defined column once, in the builder's order, and nothing else; it is empty iff no property is defined |
| Schema.SetListMeaning | services/database.ts:157-161 | running the SET list on a row gives the partial-update rule: defined fields take their values, all others, id and createdAt included, are kept |
| Schema.CollectOrdered | services/database.ts:106-153 | the gathered assignments are in strictly increasing column order |
| Schema.CollectDefines | services/database.ts:106-153 | a column is in the gathered list iff its test added it |
| Schema.CollectEmpty | services/database.ts:155 | the gathered list is empty iff no test added anything |
| Schema.CollectSteps | services/database.ts:157-161 | performing the gathered list equals performing each present assignment in turn |
| Schema.StepsTextFields | services/database.ts:106-121 | the first four tests set title, location, context and date when defined |
| Schema.StepsRatingFields | services/database.ts:122-137 | the next four set companion and the three ratings when defined |
| Schema.StepsTagFields | services/database.ts:138-153 | the last four set the tag lists, notes and renew value when defined, null included |
| Database.Message | store/momentsStore.ts:28 | `(error as Error).message`: an engine fault's own text, `CHECK constraint failed: ` and the column for a CHECK rejection, never empty for the service's own errors |
| Database.UpdateStatement | services/database.ts:159 | the UPDATE text starts with `UPDATE moments SET ` and ends with ` WHERE id = ?`, the SET list between |
| Database.Clauses | services/database.ts:106-153 | one clause per assignment |
| Database.Pushed | services/database.ts:106-153 | pushing an assignment appends its clause and its bound value |
| Database.StatementIgnoresData | services/database.ts:157-161 | two patches that define the same fields produce the same clauses and the same UPDATE text: no field value reaches the SQL text |
| Database.ClausesFollowShape | services/database.ts:106-153 | clauses depend only on which positions are filled |
| Database.GatheredSetList | services/database.ts:103-153 | the twelve tests together gather exactly the SET list |
| Database.ProgressStep | services/database.ts:106-153 | one field test extends both lists by exactly that field's clause and value, or leaves them |
| Database.BuildSetList | services/database.ts:103-153 | the `updates` and `values` arrays built by the twelve tests are the SET list's clauses and bound values |
| Database.PushTextFields | services/database.ts:106-121 | the first four tests extend the lists to the SET list of those fields |
| Database.PushCompanionAndRatings | services/database.ts:122-137 | the next four tests likewise |
| Database.PushTagsAndNotes | services/database.ts:138-153 | the last four tests likewise |
| Database.AppendedIsFound | services/database.ts:75-98 | an appended row with an id above every other keeps ids increasing, and a lookup by its id finds it |
| Database.AppendedRowsValid | services/database.ts:75-98 | appending a row that passes its CHECKs under the counter keeps the table invariant |
| Database.ReplaceKeepsOrder | services/database.ts:157-161 | rewriting a row in place keeps ids increasing |
| Database.DatabaseService.StatementError | services/database.ts:56-170 | the guard comes first (`Database not initialized`); a statement runs iff connected, no engine fault and the table exists |
| Database.DatabaseService.AddOutcome | services/database.ts:75-98 | insert succeeds iff the statement runs and the new row passes every CHECK, returning the next id; a statement that cannot run fails with its error, and a rejected row with `CheckFailed` naming the first failing column |
| Database.DatabaseService.UpdateOutcome | services/database.ts:100-162 | update fails only without a connection, when the statement cannot run, or when the rewritten row fails a CHECK; an empty patch and an absent id succeed |
| Database.DatabaseService.DeleteOutcome | services/database.ts:164-167 | delete fails iff the statement cannot run |
| Database.DatabaseService.constructor | services/database.ts:20-21 | a new service has no connection over the table the file already holds |
| Database.DatabaseService.Init | services/database.ts:23-54 | a failed open rethrows and changes nothing; after an open the service is connected; the table exists after a successful CREATE TABLE IF NOT EXISTS; rows are untouched |
| Database.DatabaseService.GetAllMoments | services/database.ts:56-63 | every row exactly once (same multiset), sorted by date and then createdAt, both descending; or the statement's error |
| Database.DatabaseService.GetMomentById | services/database.ts:65-73 | the row with the id, or null exactly when no row has it; or the statement's error |
| Database.DatabaseService.AddMoment | services/database.ts:75-98 | the outcome of `AddOutcome`; on success the row is appended under the old counter, ids stay increasing and a lookup by the returned id finds the input; on failure nothing changes |
| Database.DatabaseService.UpdateMoment | services/database.ts:100-162 | the outcome of `UpdateOutcome`; the row with the id becomes `Patched` when it passes the CHECKs; every failure, an empty patch and an absent id leave the table unchanged |
| Database.DatabaseService.DeleteMoment | services/database.ts:164-167 | the rows with the id are removed and the others kept in order; an absent id changes nothing and is no error |
| Database.DatabaseService.GetStats | services/database.ts:169-201 | the row count, the three means (each in 1..10 when rows exist) and a valid top-three location list; or the statement's error |
| Queries.OrderedBefore | services/database.ts:59 | `ORDER BY date DESC, createdAt DESC`: a moment comes first when its date is later, or on an equal date when it was created no earlier |
| Queries.OrderedBeforeIsPreorder | services/database.ts:59 | `ORDER BY date DESC, createdAt DESC` is total and transitive |
| Queries.ListAll | services/database.ts:56-63 | a permutation of the rows, sorted by the ORDER BY |
| Queries.ListAllNewestFirst | services/database.ts:59 | adjacent listed moments have non-increasing dates, and non-increasing creation times on equal dates |
| Queries.FirstWithId | services/database.ts:65-73 | the first row with the id, or none iff no row has it |
| Queries.FirstWithIdUnique | services/database.ts:65-73 | with increasing ids the lookup finds exactly the row at that id |
| Queries.IndexOfId | services/database.ts:157-161 | the position of the row the `WHERE id = ?` matches, or none iff no row has it |
| Queries.WithoutId | services/database.ts:164-167 | exactly the rows with another id; the rows themselves when none has it |
| Queries.WithoutIdKeepsOrder | services/database.ts:164-167 | deletion keeps ids increasing |
| Queries.Mean | services/database.ts:180-198 | `AVG(x) \|\| 0`: the exact mean times the count is the sum; 0 for an empty table |
| Queries.MeanInRange | services/database.ts:44-46 | over rows that pass the CHECKs the mean lies in 1..10 |
| Queries.SumBounds | services/database.ts:44-46 | the sum of valid ratings lies between the count and ten times the count |
| Queries.CountAt | services/database.ts:186-192 | `COUNT(*)` of a location group: positive iff the location occurs |
| Queries.Locations | services/database.ts:186-192 | the `GROUP BY` groups: each location that occurs, once |
| Queries.Groups | services/database.ts:186-192 | each group paired with its exact count |
| Queries.TopLocations | services/database.ts:186-192 | `ORDER BY count DESC LIMIT 3`: at most three distinct locations with exact counts by non-increasing count, none omitted that occurs more often than the third |
| Queries.TopOfSorted | services/database.ts:186-192 | the first three groups of a count-sorted permutation satisfy `IsTopLocations` |
| Queries.ComputeStats | services/database.ts:169-201 | total = row count, the means, and a top-three list |
| Queries.EmptyStats | services/database.ts:195-200 | an empty table gives 0 everywhere and, necessarily, an empty location list |
| Sorting.SortBy | services/database.ts:59 | a permutation of the input |
| Sorting.SortByIsSorted | services/database.ts:59 | sorted by any total preorder |
| Text.Trim | app/add-moment.tsx:72-93 | `trim()`: the result neither starts nor ends with whitespace |
| Text.TrimIsSlice | app/add-moment.tsx:52-57 | the result is the input with only whitespace cut from both ends |
| Text.TrimEmptyIff | app/add-moment.tsx:72-93 | a trimmed text is empty iff the text is all whitespace (the handlers' falsiness tests) |
| Text.TrimIdempotent | app/add-moment.tsx:53-54 | trimming twice is trimming once |
| Text.LexLeTotal | services/database.ts:59 | the text order of `ORDER BY` compares every pair |
| Text.LexLeTransitive | services/database.ts:59 | and is transitive |
| Json.EncodeBool | store/settingsStore.ts:38 | `JSON.stringify` of the mode is `true` iff the mode is true and `false` iff it is false |
| Json.DecodeBool | store/settingsStore.ts:24 | `JSON.parse` yields a boolean exactly for `true` and `false` |
| Json.BoolRoundTrip | store/settingsStore.ts:24-38 | parsing a stringified boolean gives it back |
| Json.TagsRoundTrip | app/add-moment.tsx:89-90 | parsing a stringified string array gives it back, for any strings |
| Json.EncodeTags | app/add-moment.tsx:89-90 | `JSON.stringify` of a tag list is an array text opening with `[`; `Json.TagsRoundTrip` reads it back |
| Json.DecodeTags | components/moments/MomentCard.tsx:32 | only `[]` parses to the empty list |
| Json.EscapeStringRead | app/add-moment.tsx:89-90 | reading an escaped string gives back its characters and stops at the closing quote |
| Json.ElementsRead | app/add-moment.tsx:89-90 | reading serialized elements gives the list back |
| MomentsStore.MomentsState.constructor | store/momentsStore.ts:17-20 | the initial state: no moments, not loading, no error |
| MomentsStore.MomentsState.Begin | store/momentsStore.ts:23 | loading on, error cleared, the list kept, and that state is published |
| MomentsStore.MomentsState.LoadMoments | store/momentsStore.ts:22-30 | the service's ordered list with no error, or the previous list with the failure's message; loading ends; exactly two states published |
| MomentsStore.MomentsState.Fail | store/momentsStore.ts:37-39 | the failure's message, loading over, the cache untouched |
| MomentsStore.MomentsState.AddMoment | store/momentsStore.ts:32-40 | a rejected insert leaves table and cache and records why; an accepted one appends the row and reloads (a failed reload keeps the stale list with its message) |
| MomentsStore.MomentsState.UpdateMoment | store/momentsStore.ts:42-50 | same for update, with the row patched in place or the table unchanged |
| MomentsStore.MomentsState.DeleteMoment | store/momentsStore.ts:52-60 | same for delete, with the id's rows removed |
| MomentsStore.MomentsState.GetMomentById | store/momentsStore.ts:62-64 | the first cached moment with the id, none iff the cache lacks it; it reads only the cache |
| SettingsStore.AsyncStorage.GetItem | store/settingsStore.ts:22 | the stored value, null when the key is absent, or the failure |
| SettingsStore.AsyncStorage.SetItem | store/settingsStore.ts:38 | stores the value under the key, or fails and stores nothing |
| SettingsStore.SavedMode | store/settingsStore.ts:24 | unset selects dark mode; a saved value selects a mode iff it is `true` or `false` |
| SettingsStore.Toggled | store/settingsStore.ts:37-39 | the negated mode, persisted under the theme key, other keys kept |
| SettingsStore.ToggleThenLoad | store/settingsStore.ts:19-39 | reading back what a toggle saved selects the new mode |
| SettingsStore.ToggleTwice | store/settingsStore.ts:35-43 | two toggles restore the mode, and the storage once the mode had been saved |
| SettingsStore.SettingsState.constructor | store/settingsStore.ts:16-17 | dark mode, not loading |
| SettingsStore.SettingsState.LoadSettings | store/settingsStore.ts:13-33 | loading ends; the mode saved under `@moments_theme_mode`, dark when unset; a failed read or an unparsable value keeps the mode |
| SettingsStore.SettingsState.ToggleTheme | store/settingsStore.ts:35-43 | a successful write flips the mode and persists it; a failed one changes neither |
| AddMoment.InitialForm | app/add-moment.tsx:28-44 | the form opens with ratings 0, no tags, no renew answer, at "Chez moi" |
| AddMoment.Without | app/add-moment.tsx:48 | `filter(t => t !== tag)`: the tag is gone, every other tag keeps its count, the list shrinks iff the tag was there; a one-element list is kept or emptied |
| AddMoment.WithoutConcat | app/add-moment.tsx:48 | filtering distributes over concatenation, so the kept tags stay in their original order |
| AddMoment.Toggle | app/add-moment.tsx:46-63 | a present tag is filtered out (all its copies, the others kept in order); an absent tag is appended |
| AddMoment.ToggleKeepsNoRepeats | app/add-moment.tsx:46-50 | toggling keeps a list without repeated tags |
| AddMoment.WithoutKeepsNoRepeats | app/add-moment.tsx:48 | filtering keeps a list without repeats |
| AddMoment.ToggleTwice | app/add-moment.tsx:46-50 | toggling an absent tag twice gives the list back |
| AddMoment.WithoutAppended | app/add-moment.tsx:48 | filtering out a tag just appended gives the list back |
| AddMoment.AddTag | app/add-moment.tsx:52-70 | blank input changes nothing; otherwise the trimmed text is toggled and the input cleared |
| AddMoment.HandleAddTopTag | app/add-moment.tsx:52-57 | only the top list and its input change |
| AddMoment.HandleAddFlopTag | app/add-moment.tsx:65-70 | only the flop list and its input change |
| AddMoment.StoredLocation | app/add-moment.tsx:78-82 | "Autre" takes the trimmed custom text, or "Autre" when blank; an empty choice also becomes "Autre"; any other choice is kept; never empty |
| AddMoment.RenewText | app/add-moment.tsx:92 | yes gives `'yes'`, no gives `'no'`, no answer gives null (each iff), always a value the CHECK allows |
| AddMoment.BuildRecord | app/add-moment.tsx:72-93 | no record iff the companion is blank; otherwise trimmed companion, the title or "Moment avec …", empty context, the chosen location, the ratings as set, the stringified tag lists, notes dropped when blank |
| AddMoment.StoredAsBuilt | app/add-moment.tsx:80-93 | the insert stores a built record unchanged |
| AddMoment.UnratedIsRejected | app/add-moment.tsx:34-36 | a form saved with the untouched pleasure rating (0) is rejected by the CHECK on `pleasureRating` |
| AddMoment.RatedIsAccepted | app/add-moment.tsx:86-88 | ratings in 1..10 give a record that passes every CHECK |
| SuggestionChips.IsSelected | components/common/SuggestionChips.tsx:20 | `includes`: a chip is selected iff its tag occurs in the selection |
| SuggestionChips.CanSelect | components/common/SuggestionChips.tsx:21 | no cap or a cap of 0 always allows; otherwise allowed iff fewer than the cap are selected |
| SuggestionChips.HandlePress | components/common/SuggestionChips.tsx:20-27 | the press forwards its tag iff the tag is selected or selection is allowed |
| SuggestionChips.PressKeepsCap | components/common/SuggestionChips.tsx:21-27 | with toggle semantics, a press never takes a selection within a positive cap past it |
| SuggestionChips.FullIgnoresNewTag | components/common/SuggestionChips.tsx:21-27 | a full selection ignores an unselected chip |
| SuggestionChips.PressAllKeepsCap | components/common/SuggestionChips.tsx:21-27 | no run of presses exceeds the cap or introduces a repeated tag |
| SuggestionChips.UncappedAlwaysToggles | components/common/SuggestionChips.tsx:21-27 | without a cap, as the add-moment screen uses it, every press toggles |
| StarRating.HandlePress | components/moments/StarRating.tsx:27-31 | `onChange` receives the star iff the widget is editable and has a handler |
| StarRating.EmittedInRange | components/moments/StarRating.tsx:50-53 | every reported rating is in 1..5, so it passes the table's 1..10 CHECK |
| StarRating.IsFilled | components/moments/StarRating.tsx:59 | `star <= value`: star number `star` is drawn filled iff it is at most the value |
| StarRating.Filled | components/moments/StarRating.tsx:59 | star i+1 is filled iff i < value |
| StarRating.FilledCount | components/moments/StarRating.tsx:50-59 | a value in 0..5 fills exactly that many stars; 0 fills none |
| StarRating.PrefixCount | components/moments/StarRating.tsx:59 | the filled stars form a prefix of the stated length |
| StarRating.FilledBounds | components/moments/StarRating.tsx:59 | a value at or below 0 fills no star, one from 5 fills all |
| MomentCard.IconTable | components/moments/MomentCard.tsx:14-25 | the icon table has the six known locations, each with its own icon; only "Autre" shares the generic `location` pin with unknown places |
| MomentCard.LocationIcon | components/moments/MomentCard.tsx:14-27 | a known location's icon, otherwise `location` |
| MomentCard.ParcFallsBack | components/moments/MomentCard.tsx:14-27 | "Parc", offered by the form, falls back; "Chez moi" is `home` |
| MomentCard.ParsedTags | components/moments/MomentCard.tsx:30-33 | an empty text reads as `[]`; a parsable list is read; a failed parse leaves the empty list |
| MomentCard.ParsedTagsRoundTrip | components/moments/MomentCard.tsx:32 | the card reads back exactly what the form stringified |
| MomentCard.PreviewTags | components/moments/MomentCard.tsx:36 | the first min(2, n) tags |
| MomentCard.HasMoreTags | components/moments/MomentCard.tsx:37 | the badge shows iff the two-tag preview hides some tag |
| MomentCard.MoreCount | components/moments/MomentCard.tsx:79 | when the badge shows, its number is positive and is how many tags the preview hides |
| MomentCard.PreviewAccountsForAll | components/moments/MomentCard.tsx:36-79 | the badge shows iff tags are hidden, and preview plus badge count is the number of tags |
| MomentCard.CardShowsFormTags | components/moments/MomentCard.tsx:30-37 | a moment saved from the form previews the form's first two top tags, with the badge iff it had more than two |

## Left out

- The SQLite engine itself. Its behaviour enters through the modelled state: rows in rowid order, the counter, CHECK evaluation and the meaning of each statement. The SQL texts other than the UPDATE's clause list are not modelled as strings. The statement's placeholder count is stated by lengths (`|values| == |updates| + 1`), not by counting `?` characters.
- Engine error messages are approximated (`CHECK constraint failed: <column>`, `no such table: moments`). Kinds of I/O failure are a single fault parameter per statement; `getStats` runs two statements under one fault parameter.
- NOT NULL on the text columns and the rating columns: the model's text fields and ratings cannot be NULL, in an insert or in an update patch, so that rejection path does not arise.
- Non-integer ratings (SQLite's type affinity) and 64-bit id wrap-around.
- `Queries.Mean`: the mean is exact (a `real`), not a double-precision float.
- `Database.DatabaseService.GetStats`: its ensures fixes one order among locations with equal counts, the order of `Queries.TopLocations` (an insertion sort of the groups). SQLite's `ORDER BY count DESC` does not promise that order. The list it fixes is one that `Queries.IsTopLocations` admits.
- `Database.DatabaseService.GetAllMoments`: its ensures fixes one order among rows with equal date and createdAt, rowid order (`Queries.ListAll`). SQLite's `ORDER BY date DESC, createdAt DESC` does not promise that order. The list it fixes is a permutation of the rows sorted by the ORDER BY.
- `createdAt` and `date` are texts given by the caller (`now`, the picker's `toISOString()`); clocks are not modelled.
- `Json`: only the canonical text that `JSON.stringify` produces for string arrays and booleans is parsed. Other valid JSON (spaces, different escapes) is treated as a parse failure. So is a valid non-boolean value under the theme key, which the app would assign to `isDarkMode` as it is; the model keeps the mode instead.
- `SettingsStore.SettingsState.LoadSettings`: the transient `isLoading: true` state is set but not traced as a published state; its contract states the end state only.
- Concurrency between overlapping async actions: each action is modelled as running to completion.
- Rendering, styles, navigation (`router.back()`, the alert text), the date picker, fonts and the startup sequence in `app/_layout.tsx`.
- `MomentCard.LocationIcon`: a location named like a built-in object property (`constructor`) would find a non-icon in the JavaScript object; the model's map has no such keys.
- `MomentCard.ParsedTags`: a parse that yields valid JSON which is not an array (the card would then fail on `slice`) counts as a failed parse.
