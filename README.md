# Investment tracker: a verified model of its core logic

The investment tracker is a browser application. It keeps a journal of stock investment
records (symbol, company, date, amount, prediction, analysis, outcome) in the browser's
`localStorage`, and chart images in an IndexedDB store. It works through:

- a record form;
- a paged, filterable, sortable record list with CSV export;
- an analytics page (totals, win rates, monthly, sector and timeframe groups);
- a settings page with export, import and delete-all;
- an image store with uploads, a library view, search, tags and categories.

This project models that logic in Dafny and proves what each operation promises. There is one
module per source file:

| module | file | models |
|---|---|---|
| `Wrappers`, `Lists`, `Text`, `Sorting` | `wrappers.dfy`, `lists.dfy`, `text.dfy`, `sorting.dfy` | shared vocabulary: Option/Result, filter, sums and counts, toggles, JavaScript string operations (`toLowerCase`, `includes`, `trim`, `join`, `split`, number printing), and a sort proved sorted and a permutation |
| `ImageDatabase` | `image_database.dfy` | the IndexedDB store: three auto-keyed tables in a class |
| `ImageUtils` | `image_utils.dfy` | file validation, the batch processing loop, the thumbnail and resize dimension rule |
| `ImageLibrary` | `image_library.dfy` | the library view: filter, sort, selection, guarded deletes |
| `ImageUpload` | `image_upload.dfy` | the upload panel: the drop pipeline, tag picker, add-tag guard, deletes |
| `Records` | `records.dfy` | the investment record, the settings value and `localStorage` as a class |
| `RecordsList` | `records_list.dfy` | the record list page |
| `Analytics` | `analytics.dfy` | `calculateAnalytics` and the insight picks |
| `InvestmentForm` | `investment_form.dfy` | the record form |
| `SettingsPage` | `settings.dfy` | the settings page |

State that the source updates in place becomes a class:

- the image store (`ImageDatabase.ImageStore`);
- `localStorage` (`Records.LocalStorage`);
- the stateful pages: `RecordsList.RecordsView`, `AnalyticsView`, `InvestmentForm.Form`,
  `SettingsPage.Page` and `ImageUpload.UploadPanel`.

Loops in the source become methods with loop invariants. The pure updaters and queries become
functions, and lemmas relate them.

Inputs from the outside are parameters of the operations:

- the clock (`Date.now()`, `new Date()`), `Math.random()`, and the user's answer to `confirm`;
- the sample records shown when nothing is stored;
- the browser's decoding and compression of a file, which succeeds or fails per file.

## Model

| member | source | states |
|---|---|---|
| ImageDatabase.ToRecord | src/utils/imageDatabase.js:18-31 | the stored row carries the new id and the current time whatever the input says; an empty category becomes `uncategorized` and any other is kept; missing tags become `[]`; a record id of 0 becomes null and any other is kept; the other fields are copied |
| ImageDatabase.ImageStore.SaveImage | src/utils/imageDatabase.js:16-38 | the id is a fresh key, one more than the last; exactly that row is added; no other row or table changes |
| ImageDatabase.ImageStore.SaveMultipleImages | src/utils/imageDatabase.js:41-56 | one bulk insert: the table gains exactly the batch's rows under fresh consecutive keys, and the key counter moves past them; returns the new keys in input order (the callers' reading), each filed with its input's defaulted row; the key invariant is kept |
| ImageDatabase.BatchKeyed | src/utils/imageDatabase.js:43-56 | a bulk insert starting at the next free key keeps every row under its own id, below the next free key |
| ImageDatabase.BatchRowsRange | src/utils/imageDatabase.js:43-56 | a bulk insert files its rows under exactly the consecutive keys from the first free one |
| ImageDatabase.BatchKeepsRows | src/utils/imageDatabase.js:43-56 | a bulk insert at the next free key leaves every earlier row in place and unchanged |
| ImageDatabase.BatchRowsAt | src/utils/imageDatabase.js:43-56 | the i-th input of a bulk insert is filed under the i-th new key, with its defaulted row |
| ImageDatabase.ImageStore.SaveMultipleImagesAsWritten | src/utils/imageDatabase.js:43-58 | the same bulk insert, but the result is only the last new key, or nothing for an empty batch |
| ImageDatabase.ImageStore.GetImage | src/utils/imageDatabase.js:66-73 | a row exactly when the key is stored, and it is that row |
| ImageDatabase.ImageStore.GetAllImages | src/utils/imageDatabase.js:76-78 | a permutation of all stored rows, sorted by upload date descending, ties by larger key first |
| ImageDatabase.ImageStore.GetImagesByCategory | src/utils/imageDatabase.js:86-93 | a stored image is returned iff its category equals the argument; ascending key order; empty when none match |
| ImageDatabase.ImageStore.GetImagesByRecordId | src/utils/imageDatabase.js:106-113 | a stored image is returned iff it is attached to that record; ascending key order |
| ImageDatabase.ImageStore.GetImagesByTag | src/utils/imageDatabase.js:96-103 | as intended: a stored image is returned iff its tags contain the tag |
| ImageDatabase.ImageStore.GetImagesByTagAsWritten | src/utils/imageDatabase.js:96-103 | as written, over the plain `tags` index: always empty |
| ImageDatabase.TagLookupFindsNothingAsWritten | src/utils/imageDatabase.js:96-103 | an image carrying the tag is found by the intended lookup and missed by the one as written |
| ImageDatabase.ImageStore.SearchImages | src/utils/imageDatabase.js:116-123 | an image is found iff the lower-cased query is a substring of its lower-cased name, of some lower-cased tag, or of its lower-cased category |
| ImageDatabase.SearchEmptyFindsAll | src/utils/imageDatabase.js:116-123 | the empty query finds every image |
| ImageDatabase.SearchFindsTag | src/utils/imageDatabase.js:121 | an image is found by any of its own tags |
| ImageDatabase.SearchIgnoresQueryCase | src/utils/imageDatabase.js:118 | lower-casing the query first changes nothing |
| ImageDatabase.ApplyPatch | src/utils/imageDatabase.js:131-133 | an update keeps the key |
| ImageDatabase.ApplyPatchIdempotent | src/utils/imageDatabase.js:131-133 | applying the same update twice is applying it once |
| ImageDatabase.ApplyPatchCompose | src/utils/imageDatabase.js:131-133 | two updates in a row equal one update with the later value of each field |
| ImageDatabase.ImageStore.UpdateImage | src/utils/imageDatabase.js:131-138 | returns 1 and patches exactly that row when it is stored, returns 0 and changes nothing otherwise |
| ImageDatabase.ImageStore.DeleteImage | src/utils/imageDatabase.js:141-148 | exactly that key is removed; a missing key is a no-op |
| ImageDatabase.ImageStore.DeleteMultipleImages | src/utils/imageDatabase.js:151-158 | exactly the listed keys are removed |
| ImageDatabase.ImageStore.SaveCategory | src/utils/imageDatabase.js:161-168 | the category is stored under a fresh key; nothing else changes |
| ImageDatabase.ImageStore.GetAllCategories | src/utils/imageDatabase.js:171-178 | every stored category exactly once, in ascending key order, each filed under its own key; empty iff the table is empty |
| ImageDatabase.ImageStore.SaveTag | src/utils/imageDatabase.js:181-188 | the tag is stored under a fresh key; nothing else changes |
| ImageDatabase.ImageStore.GetAllTags | src/utils/imageDatabase.js:191-198 | every stored tag exactly once, in ascending key order, each filed under its own key; empty iff the table is empty |
| ImageDatabase.RowsExact | src/utils/imageDatabase.js:171-198 | `toArray()` of a table lists one row per stored key, in ascending key order, and is empty iff the table is |
| ImageDatabase.ImageStore.GetDatabaseStats | src/utils/imageDatabase.js:201-216 | the table sizes; the total size with a missing size counted as 0; the mean size rounded half up, 0 with no images |
| ImageDatabase.RoundDiv | src/utils/imageDatabase.js:215 | `Math.round(total / n)`: the integer nearest the mean, halves up |
| ImageDatabase.ImageStore.ClearDatabase | src/utils/imageDatabase.js:224-233 | all three tables are empty |
| ImageDatabase.ImageStore.InitializeDefaultCategories | src/utils/imageDatabase.js:240-253 | on an empty table the table becomes exactly the five defaults under consecutive fresh keys, in order; otherwise nothing happens; images and tags never change |
| ImageDatabase.CategoryRowsAt | src/utils/imageDatabase.js:252 | the i-th default category is filed under the i-th new key |
| ImageDatabase.CategoryRowsSize | src/utils/imageDatabase.js:252 | a bulk insert of n categories adds n rows |
| ImageDatabase.SeedTwice | src/utils/imageDatabase.js:240-260 | seeding twice leaves exactly five categories |
| ImageDatabase.SaveThenGet | src/utils/imageDatabase.js:16-31 | a saved image reads back with the caller's size, type and dimensions and the current time |
| ImageUtils.ValidateImageFile | src/utils/imageUtils.js:97-124 | accepted iff the type is one of the six allowed and the size is at most 10 MiB; the type check comes first, so a file failing both gets the format error |
| ImageUtils.ValidateMultipleFiles | src/utils/imageUtils.js:127-152 | a count error iff there are more files than allowed; otherwise valid iff no file fails, else every failing file is listed |
| ImageUtils.InvalidFilesSound | src/utils/imageUtils.js:135-141 | each entry names a failing file by index and name, with its error; entries are in index order |
| ImageUtils.InvalidFilesComplete | src/utils/imageUtils.js:136-141 | every failing file has an entry; the scan does not stop at the first |
| ImageUtils.NoEntriesIffAllValid | src/utils/imageUtils.js:143-151 | no entries iff every file passes on its own |
| ImageUtils.ProcessImage | src/utils/imageUtils.js:155-182 | succeeds iff all three steps do; fails with the metadata error, else the compression error, else the thumbnail error; on success the name comes from the file, size and type from the compressed file, width and height from the metadata |
| ImageUtils.ProcessMultipleImages | src/utils/imageUtils.js:185-210 | the results are the successes in order, the errors the failures with their file names, and one progress report follows each success |
| ImageUtils.OneEntryPerFile | src/utils/imageUtils.js:189-207 | every file gives exactly one result or one error |
| ImageUtils.ReportsShape | src/utils/imageUtils.js:194-199 | each report has `completed` = position of a successful file + 1 and `total` = the batch size; reports follow file order |
| ImageUtils.PercentagesNonDecreasing | src/utils/imageUtils.js:198 | the reported percentages never decrease |
| ImageUtils.LastSuccessReportsHundred | src/utils/imageUtils.js:198 | a success on the last file reports 100 |
| ImageUtils.FitDimensions | src/utils/imageUtils.js:256-269 | the governing side (width when wider, else height) is clamped to its limit and the other side scales with it; the aspect ratio is kept; never upscales |
| ImageUtils.ThumbnailDimensions | src/utils/imageUtils.js:42-55 | the larger side becomes the smaller of itself and the limit; the aspect ratio is kept; never upscales |
| ImageLibrary.StepsKeep | src/components/ImageLibrary.jsx:70-90 | the three filter steps in turn keep exactly the images that pass all three checks, in their original order |
| ImageLibrary.FilterAndSort | src/components/ImageLibrary.jsx:69-126 | the view is a permutation of the filtered images, sorted by the chosen key and direction; an image is in the view iff it is stored and passes the filters |
| ImageLibrary.OrderIsPreorder | src/components/ImageLibrary.jsx:93-123 | each key and direction gives a total preorder (dates and sizes as numbers, names and categories lower-cased) |
| Lists.Toggle | src/components/ImageLibrary.jsx:129-135 | the id is removed if present and appended otherwise; other ids keep their membership |
| Lists.ToggleTwiceAbsent | src/components/ImageLibrary.jsx:129-135 | toggling an absent id twice restores the selection |
| ImageLibrary.ToggleSelectAll | src/components/ImageLibrary.jsx:138-144 | a selection as long as the view is cleared; otherwise it becomes the view's ids in view order |
| ImageLibrary.SelectAllThenClear | src/components/ImageLibrary.jsx:138-144 | from a partial selection select-all selects every visible image, and pressing it again clears the selection |
| ImageLibrary.DeleteSelectedImages | src/components/ImageLibrary.jsx:147-160 | nothing without a selection or without confirmation; otherwise exactly the selected rows go, the selection is cleared and the list is reloaded as getAllImages reads it: every remaining row once, newest upload first, ties by larger key |
| ImageLibrary.DeleteImage | src/components/ImageLibrary.jsx:163-173 | with confirmation exactly that row goes and the list is reloaded as getAllImages reads it (every remaining row once, newest first, ties by larger key); without it nothing changes |
| ImageUpload.Decorate | src/components/EnhancedImageUpload.jsx:100-105 | a saved item is the processed result with the panel's category, tags and record id |
| ImageUpload.DecorateAll | src/components/EnhancedImageUpload.jsx:100-105 | one store input per processed image, in order, each decorated with the panel's choices |
| ImageUpload.UploadPanel.constructor | src/components/EnhancedImageUpload.jsx:29-63 | an empty panel with the `uncategorized` category, no upload, error or selection, and the given record id and file limit; the mount-time load leaves the stored categories and tags in the panel, in key order |
| ImageUpload.UploadPanel.LoadCategoriesAndTags | src/components/EnhancedImageUpload.jsx:47-58 | the panel's categories and tags become every stored row of the two tables, in key order; nothing else on the panel changes |
| ImageUpload.ValidationMessages | src/components/EnhancedImageUpload.jsx:70-77 | a rejected batch shows the batch error followed by each file's own error |
| ImageUpload.ProcessMessages | src/components/EnhancedImageUpload.jsx:95-97 | one `file: error` message per failed file, in order |
| ImageUpload.UploadPanel.OnDrop | src/components/EnhancedImageUpload.jsx:66-126 | a batch over the limit shows only the count error; a batch with invalid files shows the batch error and then each invalid file's error in index order; either way store and list are untouched. Otherwise the processed images, decorated with the panel's choices, are bulk inserted and the list grows by exactly their stored rows, in order |
| ImageUpload.UploadPanel.SaveAndAppend | src/components/EnhancedImageUpload.jsx:107-114 | the batch is bulk inserted and the list gains, after its old entries, the stored row of each new key in input order |
| ImageUpload.UploadPanel.ReadBack | src/components/EnhancedImageUpload.jsx:110-112 | one row per key, in key order, each the row stored under that key |
| ImageUpload.AppendedRows | src/components/EnhancedImageUpload.jsx:107-114 | one row per batch entry: the i-th is the defaulted row under the i-th new key |
| ImageUpload.AppendedRowsAreStored | src/components/EnhancedImageUpload.jsx:107-114 | each row appended to the list is the row the bulk insert filed under the matching key |
| ImageUpload.UploadPanel.OnDropAsWritten | src/components/EnhancedImageUpload.jsx:66-121 | a rejected batch shows the same messages as the intended drop and touches nothing; otherwise the rows are saved but the list is unchanged, and the only message is the upload error, with V8's TypeError text for `undefined.map` when nothing was processed and for a number's `map` otherwise |
| ImageUpload.CompareDrops | src/components/EnhancedImageUpload.jsx:107-114 | for a valid drop where every file processes, the intended panel lists one image per file, the as-written panel none |
| ImageUpload.UploadPanel.ToggleTagSelection | src/components/EnhancedImageUpload.jsx:191-197 | the tag name is removed if selected and appended otherwise |
| ImageUpload.UploadPanel.ToggleImageSelection | src/components/EnhancedImageUpload.jsx:159-165 | the image id is removed if selected and appended otherwise; nothing else on the panel changes |
| ImageUpload.UploadPanel.HandleAddTag | src/components/EnhancedImageUpload.jsx:174-188 | a tag is saved only when its trimmed name is not blank and not already loaded; it is stored trimmed, with a `#` colour; loaded names stay distinct |
| ImageUpload.StoredTagIsLoaded | src/components/EnhancedImageUpload.jsx:47-58 | after the mount-time load every stored tag name is among the panel's tags, so the add-tag guard refuses it |
| ImageUpload.UploadPanel.HandleDeleteImage | src/components/EnhancedImageUpload.jsx:138-145 | the row leaves the store and the list, and the rest keeps its order; the selections, tags, messages and the other store tables are unchanged |
| ImageUpload.UploadPanel.HandleDeleteSelected | src/components/EnhancedImageUpload.jsx:148-156 | exactly the selected rows leave the store and the list, and the selection is cleared; tags, picked category, messages and the other store tables are unchanged |
| ImageUpload.TagColor | src/components/EnhancedImageUpload.jsx:179 | the colour is `#` followed by lower-case hexadecimal digits that read back as the random value |
| RecordsList.EmptyFiltersKeepAll | src/components/RecordsList.jsx:98-107 | an empty search term with no filters lists every record in stored order |
| RecordsList.FilterAndSort | src/components/RecordsList.jsx:97-138 | a record is listed iff it matches the search (symbol or company, case-insensitively) and both filters; the list is a permutation of the kept records, sorted by the chosen key |
| RecordsList.OrderIsPreorder | src/components/RecordsList.jsx:110-136 | date, symbol and profit (missing as 0) give total preorders in both directions |
| RecordsList.NextSort | src/components/RecordsList.jsx:150-157 | the current key flips its direction; another key starts descending |
| RecordsList.TotalPages | src/components/RecordsList.jsx:189 | `ceil(n / 10)`: the fewest pages of ten that hold `n` records; zero iff there are none |
| RecordsList.Page | src/components/RecordsList.jsx:190-192 | page `p` holds the records from `(p-1)*10` on, at most ten, and is non-empty exactly up to the last page |
| RecordsList.PagesPartition | src/components/RecordsList.jsx:189-192 | the pages, in order, put together give the whole list |
| RecordsList.PrevPage | src/components/RecordsList.jsx:496 | one page back, never below 1 |
| RecordsList.NextPage | src/components/RecordsList.jsx:503 | one page on, never past the last |
| RecordsList.RecordsView.SetSort | src/components/RecordsList.jsx:97-139 | a new sort re-sorts the list and resets the page to 1 |
| RecordsList.RecordsView.HandleSort | src/components/RecordsList.jsx:150-157 | the sort key and direction follow the toggle rule, the list is re-sorted and the page resets to 1 |
| RecordsList.RecordsView.CurrentRecords | src/components/RecordsList.jsx:190-192 | at most ten records: the current page's slice of the filtered, sorted list |
| RecordsList.RecordsView.GoPrevious | src/components/RecordsList.jsx:492-496 | when the pager is shown, the page moves one back within the page range; the records, the list, the search term, both filters and the sort are unchanged |
| RecordsList.RecordsView.GoNext | src/components/RecordsList.jsx:492-503 | when the pager is shown, the page moves one on within the page range; the records, the list, the search term, both filters and the sort are unchanged |
| RecordsList.RecordsView.GoTo | src/components/RecordsList.jsx:530-533 | a page button selects that page; the records, the list, the search term, both filters and the sort are unchanged |
| RecordsList.RecordsView.SetSearchTerm | src/components/RecordsList.jsx:97-139 | a new search term re-filters and resets the page to 1 |
| RecordsList.RecordsView.Refresh | src/components/RecordsList.jsx:97-139 | the shown list becomes a sorted permutation of the records passing the search and both filters, and the page resets to 1; records, filters and sort are unchanged |
| RecordsList.RecordsView.SetFilterPrediction | src/components/RecordsList.jsx:97-139 | a new prediction filter re-filters the list and resets the page to 1; everything else is kept |
| RecordsList.RecordsView.SetFilterResult | src/components/RecordsList.jsx:97-139 | a new result filter re-filters the list and resets the page to 1; everything else is kept |
| RecordsList.WithoutId | src/components/RecordsList.jsx:161 | exactly the records with that id go; the rest keep their order and their copies |
| RecordsList.RecordsView.HandleDelete | src/components/RecordsList.jsx:159-165 | with confirmation the records and the stored list become the records without the id, the list is re-filtered and the page resets to 1; without it nothing changes, the shown list included |
| RecordsList.CsvRow | src/components/RecordsList.jsx:170-178 | seven fields: the five text fields as stored, `未確定` for a missing result, the profit (missing as 0) as a decimal integer |
| RecordsList.CsvLines | src/components/RecordsList.jsx:168-179 | one line more than there are records: the header and one line per record |
| RecordsList.CsvReadsBack | src/components/RecordsList.jsx:168-179 | when no field holds a comma or a newline, splitting the CSV text by lines and commas gives back the header and every record's row |
| RecordsList.RecordsView.Export | src/components/RecordsList.jsx:167-179 | the exported text is the shown list's CSV: when no field holds a comma or newline it reads back as the header and one row per listed record, in list order |
| RecordsList.RecordsView.constructor | src/components/RecordsList.jsx:32-94 | the stored records when the key is set, else the sample; date descending, page 1 |
| Analytics.CompletedTrades | src/components/Analytics.jsx:126 | the records with a non-empty result and a profit, in order |
| Analytics.CalculateAnalytics | src/components/Analytics.jsx:125-225 | no report iff there are no completed trades; otherwise every figure of the report describes the completed trades |
| Analytics.TotalsReport | src/components/Analytics.jsx:133-139 | trade count, success rate, profit sum, exact mean, best and worst profit |
| Analytics.BestProfit | src/components/Analytics.jsx:138 | the maximum profit, attained by some trade |
| Analytics.WorstProfit | src/components/Analytics.jsx:139 | the minimum profit, attained by some trade |
| Analytics.Rate | src/components/Analytics.jsx:135 | a percentage between 0 and 100 for counts within the total; 0 for no trades |
| Analytics.Mean | src/components/Analytics.jsx:137 | the exact mean: times the count it gives the sum |
| Analytics.ReportBounds | src/components/Analytics.jsx:133-167 | the win rate lies in [0, 100]; the worst trade is at most and the best at least every profit; no prediction has more successes than trades |
| Analytics.AccuracyList | src/components/Analytics.jsx:155-167 | exactly three entries, for 上昇, 下降 and 横ばい in that order |
| Analytics.AccuracyOf | src/components/Analytics.jsx:156-166 | the trades with that prediction, the successful ones among them (never more), and the rate, 0 with no trades |
| Analytics.MonthlyProfits | src/components/Analytics.jsx:142-152 | the month groups (first seven characters of the date), sorted by month, summing to the total profit |
| Analytics.AccumulateGroups | src/components/Analytics.jsx:170-203 | the accumulator loop equals the grouping by key, in first-seen order |
| Analytics.AccumulateStep | src/components/Analytics.jsx:172-180 | one step of the accumulator (seed an unseen key with zeros, then add the trade) keeps the map equal to the per-key totals of the trades so far, and the key list in first-seen order |
| Analytics.KeysInOrderExact | src/components/Analytics.jsx:170-181 | the group keys are distinct and are exactly the keys that occur |
| Analytics.GroupsNonEmpty | src/components/Analytics.jsx:173-180 | every group has at least one trade and no more successes than trades |
| Analytics.GroupsPartition | src/components/Analytics.jsx:170-211 | the group trade counts sum to the number of trades and the group profits to the total profit |
| Analytics.SumOverKeysCovers | src/components/Analytics.jsx:170-211 | summing per distinct key over all keys that occur sums over all trades |
| Analytics.PerformanceOf | src/components/Analytics.jsx:183-189 | a group's key, profit and trades, a win rate in [0, 100] and the exact mean profit |
| Analytics.Performances | src/components/Analytics.jsx:170-211 | one performance per group of the given key, in first-seen key order, each built from a group with at least one trade |
| Analytics.ReportPartitions | src/components/Analytics.jsx:142-211 | the month, sector and timeframe lists each sum to the total profit, and the sector and timeframe trades to the trade count |
| Analytics.BestIndex | src/components/Analytics.jsx:538-549 | the reduce picks a maximum, and the earliest one on ties |
| Analytics.BestSector | src/components/Analytics.jsx:537-540 | none iff there are no sectors; otherwise the key of a sector whose win rate no other sector exceeds |
| Analytics.BestTimeframe | src/components/Analytics.jsx:547-550 | none iff there are no timeframes; otherwise the key of a timeframe whose mean profit no other timeframe exceeds |
| Analytics.AnalyticsView.constructor | src/components/Analytics.jsx:48-123 | the stored or sample records; an empty report when nothing is completed, otherwise the full report |
| InvestmentForm.With | src/components/InvestmentForm.jsx:62-67 | the named field takes the value and every other field is unchanged |
| InvestmentForm.ClearError | src/components/InvestmentForm.jsx:69-75 | the edited field's error is blanked when set; every other error stays |
| InvestmentForm.EmptyForm | src/components/InvestmentForm.jsx:16-28 | every field is empty except the date, which is today's; no images |
| InvestmentForm.FormErrors | src/components/InvestmentForm.jsx:85-106 | a field has an error iff its check fails, with that field's message; no error iff the form is complete |
| InvestmentForm.Check | src/components/InvestmentForm.jsx:88-105 | one check records its field's message exactly when the check fails, on top of the earlier checks' errors |
| InvestmentForm.CheckOneMore | src/components/InvestmentForm.jsx:88-105 | running one more check adds that field's message iff it fails, and nothing else |
| InvestmentForm.AllChecked | src/components/InvestmentForm.jsx:85-106 | after the six checks the errors name exactly the failing fields, each with its message, and are empty iff the form is complete |
| InvestmentForm.CheckedAt | src/components/InvestmentForm.jsx:88-105 | the check at position n is on the field of that rank |
| InvestmentForm.CompleteFailsNowhere | src/components/InvestmentForm.jsx:85-108 | the form is complete iff no field fails its check; the optional fields have no check |
| InvestmentForm.TextCheckIsTrim | src/components/InvestmentForm.jsx:88-103 | symbol, company name and analysis fail exactly when they are blank after `trim()` |
| InvestmentForm.AmountCheck | src/components/InvestmentForm.jsx:97 | every whole amount from 1 up passes, and `0` and negative amounts fail |
| InvestmentForm.Form.ValidateForm | src/components/InvestmentForm.jsx:85-109 | the errors become the failing checks; valid iff no check fails |
| InvestmentForm.Form.HandleInputChange | src/components/InvestmentForm.jsx:62-76 | only the named field changes and only its error is cleared |
| InvestmentForm.Form.RemoveImage | src/components/InvestmentForm.jsx:78-83 | the image with that id leaves the form; no other field and no error changes |
| InvestmentForm.IsBlank | src/components/InvestmentForm.jsx:88-103 | true iff the text is all white space |
| InvestmentForm.WithoutImage | src/components/InvestmentForm.jsx:78-83 | exactly the images with that id go; the rest keep their order |
| InvestmentForm.ImageFiles | src/components/InvestmentForm.jsx:35 | a dropped file is kept iff its type starts with `image/`, in drop order |
| InvestmentForm.Form.OnDrop | src/components/InvestmentForm.jsx:34-52 | one image entry per kept file is appended after the current images |
| InvestmentForm.NewRecord | src/components/InvestmentForm.jsx:124-128 | the new record carries every form field, the new id and the creation time, and no result, profit or sector |
| InvestmentForm.Form.HandleSubmit | src/components/InvestmentForm.jsx:111-146 | the errors become exactly the failing checks, each with its message; an invalid form stores nothing and keeps the form; a valid one appends exactly one record to the stored list and resets the form |
| SettingsPage.ChangeSetting | src/components/Settings.jsx:74-82 | only `settings[c][k]` changes; every other key of that category and every other category is untouched |
| SettingsPage.ChangeToSameValue | src/components/Settings.jsx:74-82 | setting a value that is already there changes nothing |
| SettingsPage.LastChangeWins | src/components/Settings.jsx:74-82 | a later change of the same setting overrides an earlier one |
| SettingsPage.ChangesInCategoriesCommute | src/components/Settings.jsx:74-82 | changes in two different categories can be made in either order |
| SettingsPage.ChangesInCategoryCommute | src/components/Settings.jsx:74-82 | changes of two different keys in one category can be made in either order |
| SettingsPage.Page.HandleSettingChange | src/components/Settings.jsx:74-82 | the settings become the change of that one entry; nothing else on the page changes |
| SettingsPage.Page.constructor | src/components/Settings.jsx:47-64 | the saved settings or the defaults; the record count is the number of stored records; the recorded backup time |
| SettingsPage.Page.SaveSettings | src/components/Settings.jsx:84-88 | the current settings are written under `appSettings` and the status is `success` |
| SettingsPage.SaveThenLoad | src/components/Settings.jsx:47-60 | saved settings are what the next load reads, and saving leaves the record count and the backup time alone |
| SettingsPage.Page.ExportData | src/components/Settings.jsx:90-122 | the document holds the stored records (none when absent), the current settings, the time and version `1.0`; the backup time is recorded |
| SettingsPage.ImportedItems | src/components/Settings.jsx:124-155 | records are written only for an array, settings only when present, a file that does not parse changes nothing, and no other key changes |
| SettingsPage.Page.ImportData | src/components/Settings.jsx:124-155 | the store follows the import policy, and present settings replace the page's settings |
| SettingsPage.ExportThenImport | src/components/Settings.jsx:93-142 | importing an exported document restores its records and settings and keeps the backup time |
| SettingsPage.Page.DeleteAllData | src/components/Settings.jsx:157-164 | exactly `investmentRecords`, `appSettings` and `lastBackupDate` are removed |
| SettingsPage.DeleteThenLoad | src/components/Settings.jsx:157-160 | after deleting all data the next load sees no records, the default settings and no backup |
| Text.IntToStringRoundTrip | src/components/RecordsList.jsx:177-179 | an integer written out in decimal reads back as itself |
| Text.SplitJoin | src/components/RecordsList.jsx:179 | joining parts that do not hold the separator, then splitting, gives the parts back |
| Text.TrimEmptyIffAllSpace | src/components/InvestmentForm.jsx:88 | a string trims to nothing iff it is all white space |
| Sorting.SortBy | src/components/RecordsList.jsx:110-136 | the output is sorted by the preorder and is a permutation of the input |
| Lists.SumPermutation | src/components/Analytics.jsx:136 | a sum does not depend on the order of the trades |

## Left out

- Floating point. Win rates, means and accuracies are exact reals, and amounts and profits are
  exact integers. IEEE rounding is not modelled.
- Text handling:
  - Lower-casing maps only ASCII letters. Unicode case mapping is not modelled.
  - `localeCompare` on month keys, and the string comparisons of the sorts, are code-point
    lexicographic order.
  - Dates are compared as their `YYYY-MM-DD` text, which orders them like `new Date(...)` does.
- Object key order: `Object.entries` lists non-integer keys in insertion order, which the groups
  follow. The JavaScript rule that integer-like keys come first is not modelled.
- Browser APIs are reduced to parameters:
  - file decoding and compression are one success-or-failure outcome per file;
  - `FileReader` results complete in drop order;
  - `confirm` is a boolean; `alert`, `reload`, downloads, `setTimeout` and rendering are left out.
- Formatting is left out: `formatFileSize`, `formatBytes`, `toLocaleDateString` and
  `Intl.NumberFormat`. `lastBackup` keeps the recorded time instead of the localised date.
- The settings page's `totalSize` statistic is left out, because it is computed by `formatBytes`.
- `localStorage` holds parsed values, so JSON text is assumed to round-trip.
- Import: other JSON shapes are not modelled, such as a truthy non-object `settings` value or a
  non-record array.
- `compressImage`, `getImageMetadata`, `fileToBase64`, `generateThumbnail`'s canvas drawing,
  `correctImageOrientation`, `base64ToBlob` and `downloadImage` are browser or library code.
  Only their succeed-or-fail outcome and the dimension rule are modelled.
- Canvas truncation of widths and heights to integers is left out; dimensions are reals.
- Dexie and IndexedDB:
  - Internals, promises and `Promise.all` are left out; store calls run one after another.
  - A failing store call (a thrown error) is not modelled.
- The ids `Date.now()` and `Date.now() + Math.random()`, and all timestamps, are parameters. One
  time value serves both `exportDate` and `lastBackupDate`.
- ImageDatabase.ImageStore.SaveMultipleImages: one time value `now` stands for the per-row
  `new Date()` reads inside `imagesData.map`, so every row of one batch carries the same
  `uploadDate`. The source's rows can carry different, non-decreasing times when the batch
  crosses a clock tick. The order `getAllImages` gives is the same either way, because later rows
  have later or equal dates and larger keys.
- ImageDatabase.ImageStore.SaveMultipleImagesAsWritten: the same single `now` for the whole batch.
- `handleSort` is defined but never called in the rendered page. It is modelled anyway
  (`RecordsView.HandleSort`), and the page's sort picker is modelled by `SetSort`.
- InvestmentForm.PositiveNumber: `parseFloat(s) > 0` is modelled for the text a number input
  can hold: no minus sign, and a non-zero digit before the exponent. An exponent so negative
  that the value underflows to 0 is not modelled.
- A record's `actualProfit` of `null` is not distinguished from a missing one.
- The sample records of the record list and analytics pages are a parameter, not the literal
  list.
- CSV fields are not quoted or escaped in the source either. The read-back lemma therefore
  requires fields free of commas and newlines.
- The Dashboard, Navigation and Statistics components, `App.jsx` and `vite.config.js` are not
  part of this model. They hold view code and sample data only.

- ImageUtils.ProcessImage: the `aspectRatio` field of the processed result is not modelled. The
  store copies only its listed fields into a row, so the field never reaches the image table.
- ImageLibrary.FilterAndSort: a missing file size sorts as 0. In the source `undefined` compared
  with `<` or `>` is always false, so the comparator answers -1 both ways and the order among such
  rows is up to the engine's sort. The model fixes one order there.
- ImageLibrary.FilterAndSort and RecordsList.FilterAndSort: the source comparators answer -1 for equal keys rather than 0, which is not a
  consistent comparator; the model sorts by the total preorder those keys give, so the order of
  rows with equal keys is not the engine's.

## Findings

| source | as written | input that shows it | evidently intended | confidence | as-written member | corrected member |
|---|---|---|---|---|---|---|
| src/utils/imageDatabase.js:9, 98 | the schema declares `tags` as a plain index, so each row is filed under its whole tag array, and `where('tags').anyOf([tag])` compares that array key with a string key | one stored image with tags `["AI"]`; `getImagesByTag("AI")` returns `[]` | a multi-entry index (`*tags`): the images whose tags contain the tag | not executed | ImageDatabase.ImageStore.GetImagesByTagAsWritten | ImageDatabase.ImageStore.GetImagesByTag |
| src/utils/imageDatabase.js:43-58, src/components/EnhancedImageUpload.jsx:107-114 | `bulkAdd` without `{allKeys: true}` resolves to the last new key only, so `savedIds.map` throws in `onDrop`; the rows are saved but never shown, and the user sees an upload error | one valid image dropped on an empty panel: the store gains the row, the panel list stays empty | the new keys in input order, each row read back and appended to the panel | not executed | ImageUpload.UploadPanel.OnDropAsWritten | ImageUpload.UploadPanel.OnDrop |
