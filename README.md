# SupportoTeam, modelled in Dafny

SupportoTeam is a browser record manager for a support team. It keeps five
collections in one JavaScript `state` object: link **sections**, **links**,
**open points** (tasks with deadlines), **services** (SOAP/REST catalogue
entries) and **CRQ** (change requests). The state lives in `localStorage` and
is synchronised with a repository through two small HTTP gateways:

- a worker that re-sends the state as a `dispatches` event;
- a serverless function that reads the current version of a file and writes
  the file conditionally.

This project models the decision logic under the user interface:

- loading, saving, canonicalising, pushing and pulling the state
  (`js/core.js`, and the older generation in `app.js`);
- the two gateways (`worker.js`, `api/save-to-github/save-to-github-vercel.js`);
- the record normalisers with their legacy aliases;
- the filter and sort engines, the sort toggles and the stored filters;
- in-place list edits: upsert, delete, the section swap, the section delete
  with link reassignment, the three ways of moving a link, and the folder
  import;
- the green/yellow/red notification classifiers.

Modules, one per file:

| file | module | models |
|---|---|---|
| wrappers.dfy | Wrappers | `Option` |
| strings.dfy | Strings | `trim`, ASCII case mapping, `split`/`join`, `replace`, number parsing, string order |
| json.dfy | Json | JSON values, JavaScript truthiness, `String(x)`, `a \|\| b`, `Array.isArray` |
| seqs.dfy | Seqs | `filter`, `findIndex`, a stable sort, and `Collection`, an array edited in place |
| core.dfy | Core | js/core.js |
| worker.dfy | Worker | worker.js |
| gateway.dfy | Gateway | api/save-to-github/save-to-github-vercel.js |
| listing.dfy | Listing | the date range, sort toggles, stored filters, upsert and delete shared by js/op.js, js/svc.js and js/crq.js |
| op.dfy | OpenPoints | js/op.js |
| svc.dfy | Services | js/svc.js |
| crq.dfy | Crq | js/crq.js |
| links.dfy | Links | js/links.js |
| app.dfy | Legacy | what app.js does differently from the js/ files |

How the source's environment is handled:

- Browser and library services are parameters of the functions that use
  them: `JSON.parse` and `JSON.stringify`, `fetch`, `localeCompare`,
  `crypto.randomUUID` (a fresh id), `new Date(x).toISOString()` (a day key
  that may be missing), `tuesdayOfPreviousWeek`, `confirm`, base64 and the
  clock.
- `localStorage` is a `map<string, string>`.
- Times are integers: milliseconds for open-point deadlines and day numbers
  for CRQ release dates.
- An invalid `Date` is a missing value, so every comparison with it is false,
  as in JavaScript.
- Collections that the source edits in place (`state.links.splice`,
  `state.sections[i] = …`, `unshift`) are `Seqs.Collection` objects. Each
  method says exactly how their `items` change.
- Loops become methods with invariants, proved against a specification
  function (for example `workingDaysDiff`, the notification passes and the
  last-index loop of `moveLinkToSectionEnd`).

Two differences between the code and its description are modelled as the
code does it:

- The current client keeps open points under `op`. The worker forwards only
  `openPoints`, so open points pushed by the current client reach upstream
  empty (`Worker.OpenPointsUnderOpNotForwarded`).
- js/op.js and js/links.js read `state.openPoints`, while the state js/core.js
  builds holds only `op`. On that state the open-point save, delete and
  notifications throw, and a clear is lost on reload. This is recorded under
  "## Findings" (`OpenPoints.SaveOpAsWritten`,
  `OpenPoints.ClearAsWrittenLostOnReload`); the editing methods and the
  notifications model the evidently intended collection, `state.op`.

The section normaliser is idempotent only when the stored name and icon are
not blank. A name made of spaces becomes the empty name, and the next
normalisation turns that into "Senza nome" (`Links.BlankNameNotStable`).

## Model

| member | source | states |
|---|---|---|
| Core.ToObject | js/core.js:55-63 | the state object has exactly the keys sections, links, op, services, crq |
| Core.DefaultState | js/core.js:55-63 | the default state has all five collections empty |
| Core.Shape | js/core.js:90-100 | a value that is not an object, or an object with no array under any key, reads as the empty state |
| Core.LoadState | js/core.js:83-105 | a missing, empty, unparsable or `null` item loads the default state; otherwise the parsed value is read with `Shape` |
| Core.ShapeOfObject | js/core.js:90-100 | reading back the object form of a state gives the same state |
| Core.LoadAfterSave | js/core.js:83-115 | a state saved as text (with a stringify that parse inverts) loads back unchanged |
| Core.LoadPrefersOp | js/core.js:90-92 | when both `op` and `openPoints` hold arrays, `op` wins |
| Core.CanonicalShape | js/core.js:119-124 | `openPoints` moves to `op` exactly when it is an array and `op` is not; any other object is unchanged |
| Core.CanonicalIdempotent | js/core.js:119-124 | canonicalising twice is the same as canonicalising once |
| Core.CanonicalPreservesLoad | js/core.js:119-124 | canonicalising never changes what a later load reads |
| Core.LocalWrite | js/core.js:110-115 | the debounced save writes the state text under the state key and the time under the last-save key, and changes nothing else |
| Core.LocalWriteStoresTime | js/core.js:110-115 | the save time written by the local save parses back as that time |
| Core.HttpUrlPrefixes | js/core.js:145 | an endpoint starting with `http://` or `https://`, in any case, passes; a passing one starts with `http` in some case |
| Core.RecentPush | js/core.js:149-156 | nothing stored never blocks; a time the client wrote blocks exactly while less than 6000 ms have passed |
| Core.PushGate | js/core.js:143-157 | a push is refused for a non-http(s) endpoint, and is too soon when the stored push time is less than 6000 ms ago |
| Core.FailureMessage | js/core.js:166-168 | an exception reports its own message as it is; a non-ok response reports its text, the status text when the text is unreadable, and the default message only when that is empty |
| Core.Push | js/core.js:141-176 | at most one POST, only past the gate; the push time is stored only after an ok response |
| Core.PushSuppressedAfterPush | js/core.js:149-157 | a push less than 6000 ms after a stored push sends nothing |
| Core.PushAllowedAfterInterval | js/core.js:149-157 | once 6000 ms have passed since the stored push, the gate opens again |
| Core.PackOf | js/core.js:242-247 | a failed per-file read becomes `{}` |
| Core.CombinedUrl | js/core.js:202 | the combined URL appends `op=load` with `&` when the endpoint has a `?`, else with `?` |
| Core.FallbackUrls | js/core.js:234-240 | the four per-file URLs hang off the endpoint with its trailing slashes removed |
| Core.FromPacks | js/core.js:249-257 | the fallback state takes every collection from its own file, open points from `op` before `openPoints` |
| Core.Pull | js/core.js:181-275 | no http(s) endpoint is "not configured" and requests nothing; a recognised combined body is loaded as `Shape` of it after one request; otherwise all five URLs are requested, the pull fails exactly when a per-file body is `null`, else the state is `FromPacks` of the four bodies; the empty-repository outcome holds exactly when a per-file state has all five collections empty |
| Core.EmptyPackEmpties | js/core.js:249-257 | a `{}` pack gives empty collections for the fields it feeds |
| Core.PerFilePull | js/core.js:242-262 | the fallback fails exactly when one of the four bodies is `null`; otherwise it loads `FromPacks` of them and flags an empty state |
| Core.FailedReadDegrades | js/core.js:242-257 | one failed per-file read empties only its own collections and the pull still succeeds: the state is `FromPacks` of the four bodies with that one replaced by `{}` |
| Core.EmptyCombinedNotReported | js/core.js:214-231 | a recognised combined response with every collection empty loads without the empty-repository report |
| Core.Client.Boot | js/core.js:135-136 | start-up loads the stored state and schedules its canonical save |
| Core.Client.SaveState | js/core.js:117-130 | the state is canonicalised in place and one local save is pending, replacing any earlier one |
| Core.Client.FlushLocalSave | js/core.js:110-115 | a pending save that is due writes storage once and is cleared; otherwise nothing changes |
| Core.Client.SaveToRepo | js/core.js:141-176 | storage and the sent body are those of `Push` for the JSON text of the state |
| Core.Client.LoadFromRepo | js/core.js:219-264 | a successful pull replaces the state and saves it; a failed one changes nothing |
| Worker.AllowList | worker.js:7-10 | the allowed origins are non-empty trimmed comma-free entries, the default origin when the variable is unset or empty |
| Worker.AllowListNonEmptyTrimmed | worker.js:7-10 | no allowed origin is empty, holds a comma or has surrounding white space |
| Worker.SingleEntry | worker.js:7-10 | a text without commas or surrounding white space parses to the list of itself |
| Worker.DefaultOriginEntry | worker.js:7 | the default allow-list is exactly the default origin |
| Worker.AllowListParses | worker.js:7-10 | the allow-list is the parse of the variable's text, or of the default origin's |
| Worker.AllowedOriginNonEmpty | worker.js:12-19 | an allowed origin is non-empty, so CORS headers are always added for it |
| Worker.WithCors | worker.js:14-21 | a non-empty origin is echoed with `Vary: Origin`; status and body are kept |
| Worker.Info | worker.js:43-52 | the diagnostics expose owner, repository and token only as booleans |
| Worker.FieldOrEmpty | worker.js:89-93 | a falsy field becomes `[]`, a truthy one is kept |
| Worker.Payload | worker.js:86-95 | the event holds exactly the five keys, each from the body or `[]` |
| Worker.HandlePost | worker.js:73-118 | missing configuration gives 500 with no call; an upstream failure gives 502; success gives 200 `{ok:true}` |
| Worker.PreflightHeaders | worker.js:30-39 | an accepted preflight echoes the origin and allows the methods and headers for one day |
| Worker.Handle | worker.js:4-124 | OPTIONS gives 403 or 204, GET gives 200 diagnostics, other methods 405, and a POST from a disallowed origin 403 with no body read and no call |
| Worker.OpenPointsUnderOpNotForwarded | worker.js:86-95 | a body with open points under `op` is forwarded with `openPoints` empty |
| Worker.PayloadFieldsTruthy | worker.js:89-93 | every forwarded collection is truthy |
| Gateway.Branch | api/save-to-github/save-to-github-vercel.js:16 | the branch is the variable, or `main` when unset or empty |
| Gateway.StripSlashes | api/save-to-github/save-to-github-vercel.js:17 | the base path neither starts nor ends with `/` |
| Gateway.StripSlashesIdempotent | api/save-to-github/save-to-github-vercel.js:17 | stripping twice is stripping once |
| Gateway.FullPath | api/save-to-github/save-to-github-vercel.js:26 | with a base the file sits under it: the text before the first `/` after the base is the base, the rest is the path; without a base the path is kept |
| Gateway.PlanOf | api/save-to-github/save-to-github-vercel.js:6-20 | OPTIONS gives 204, other non-POST 405, a missing path or data 400, missing configuration 500, all before any call |
| Gateway.ReadResult | api/save-to-github/save-to-github-vercel.js:29-30 | a read gives the current version of an existing file and 404 otherwise |
| Gateway.WriteResult | api/save-to-github/save-to-github-vercel.js:32-36 | a write succeeds exactly when it carries no version for a new file or the current version of an existing one |
| Gateway.ReadThenWriteSucceeds | api/save-to-github/save-to-github-vercel.js:28-35 | read-then-write creates a missing file and updates an existing one |
| Gateway.InterleavedWriteRefused | api/save-to-github/save-to-github-vercel.js:28-35 | a write between the read and the conditional write makes the later write fail and keeps the other content |
| Gateway.Expected | api/save-to-github/save-to-github-vercel.js:6-39 | the status, body, calls made and resulting store of one request |
| Gateway.FailedWritePropagates | api/save-to-github/save-to-github-vercel.js:36 | a non-ok PUT answers with the store's own status |
| Gateway.ContentsStore.Read | api/save-to-github/save-to-github-vercel.js:29 | a read returns `ReadResult`, is logged and changes no file |
| Gateway.ContentsStore.Write | api/save-to-github/save-to-github-vercel.js:32-35 | a write applies `WriteResult` to the files and is logged |
| Gateway.ServerResponse.SetHeader | api/save-to-github/save-to-github-vercel.js:3-5 | a header is set and nothing else changes |
| Gateway.ServerResponse.Finish | api/save-to-github/save-to-github-vercel.js:6-7 | status and body are recorded once |
| Gateway.SaveFile | api/save-to-github/save-to-github-vercel.js:26-38 | one read, then one PUT carrying the version read, and the status propagated |
| Gateway.Handle | api/save-to-github/save-to-github-vercel.js:2-40 | the CORS headers, status, body, calls and store after a request are those of `Expected` |
| Listing.InDateRange | js/op.js:270-278 | an empty or unconvertible value passes; otherwise its day lies within the non-empty bounds |
| Listing.WiderRangeKeeps | js/op.js:270-278 | widening the bounds never drops a value |
| Listing.Sign | js/op.js:369 | the factor is -1 for `desc` and 1 otherwise |
| Listing.NextSort | js/op.js:437-445 | the same column flips the direction; a new column is descending exactly when it is a descending key |
| Listing.ToggleTwice | js/op.js:438-439 | two clicks on the sorted column restore the setting |
| Listing.ToggleNegates | js/op.js:438-439 | a click on the sorted column negates the factor |
| Listing.SortControl.Set | js/svc.js:400-408 | the setting becomes `NextSort` of the old one |
| Listing.KeyedSortSorted | js/svc.js:410-415 | with an antisymmetric `localeCompare`, the sorted copy is in column order |
| Listing.KeyedSortConstant | js/svc.js:414 | a column with one text everywhere keeps the row order |
| Listing.Spread | js/svc.js:171 | the properties the stored value spreads override the defaults of the same name and every other default stays |
| Listing.IndexKeyed | js/svc.js:171 | an array spread into an object gives one property per index, named by its decimal digits |
| Listing.OwnProperties | js/svc.js:171 | an object spreads its fields, an array its elements and a string its characters under their indices, null, numbers and booleans nothing |
| Listing.SpreadIndexedKeepsDefaults | js/svc.js:171 | a stored array or string adds index keys and changes no default |
| Listing.SpreadIdempotent | js/svc.js:179 | laying the defaults under a merged filter again changes nothing |
| Listing.LoadFilter | js/svc.js:167-175 | the stored filter over the defaults, or the defaults when nothing is stored or parsed |
| Listing.SaveMerged | js/svc.js:177-181 | the filter over the defaults is written under the key and nothing else changes |
| Listing.SaveOrDefault | js/op.js:191-195 | the filter, or the defaults when it is falsy, is written under the key |
| Listing.LoadAfterSaveMerged | js/svc.js:167-181 | a saved merged filter loads back as the same merge |
| Listing.LoadAfterSaveOrDefault | js/op.js:180-195 | a saved open-point filter loads back over the defaults |
| Listing.Upserted | js/svc.js:114-119 | a new record goes first; an edit replaces exactly the first record with that id (as `findIndex` finds it), keeping the id; an unknown id changes nothing |
| Listing.UpsertEditKeepsIds | js/svc.js:114-116 | an edit keeps every position's id |
| Listing.UpsertEditChangesOne | js/svc.js:115-116 | an edit changes at most one position |
| Listing.Upsert | js/svc.js:112-119 | the collection becomes `Upserted` of the old one |
| Listing.WithoutId | js/svc.js:131-132 | the records without the id, in order, none of them with that id |
| Listing.WithoutIdRemovesOnlyThatId | js/svc.js:129-135 | the kept and the removed records make up the old collection |
| Listing.DeleteById | js/svc.js:129-135 | the collection becomes `WithoutId` of the old one |
| OpenPoints.Assignees | js/op.js:15-20 | the assignees are trimmed, non-empty names, from an array or from comma-separated text |
| OpenPoints.PriorityOf | js/op.js:21-23 | the priority is lower-case, `medium` by default, aliases read only when the canonical key is falsy |
| OpenPoints.StatusOf | js/op.js:24-26 | the status is trimmed, `Nuovo` by default |
| OpenPoints.NormalizeOp | js/op.js:10-37 | a truthy id is kept, else a fresh one; the title is the trimmed `title` when truthy, else the trimmed `titolo` |
| OpenPoints.NormalizeOpClean | js/op.js:10-37 | every normalised open point is clean: trimmed texts, lower-case priority, valid assignees |
| OpenPoints.NormalizeOpIdempotent | js/op.js:10-37 | normalising a stored normalised open point gives it back |
| OpenPoints.CleanReadBack | js/op.js:10-37 | a clean open point, stored and normalised, is itself |
| OpenPoints.StoredReadBack | js/op.js:10-37 | any object storing a clean open point normalises back to it |
| OpenPoints.DefaultOpFilterObject | js/op.js:165-178 | the default filter holds the ten criteria with their defaults |
| OpenPoints.FilterOps | js/op.js:280-348 | the result is a subsequence; with an id it holds every copy of each row with that id and nothing else, otherwise every copy of each row meeting every criterion and nothing else |
| OpenPoints.IdFilterExact | js/op.js:283-285 | the id filter keeps a row exactly when it has that id, whatever the other criteria |
| OpenPoints.EmptyFilterKeepsAll | js/op.js:289-347 | a filter with no criterion keeps every row |
| OpenPoints.MaxOnlyNarrows | js/op.js:313 | adding the max-only criterion never lets more rows through |
| OpenPoints.AnyAssignee | js/op.js:320-334 | the flag loop finds an assignee exactly when one matches |
| OpenPoints.AnyProject | js/op.js:337-344 | the flag loop finds a project exactly when a non-empty one is contained |
| OpenPoints.RowMatches | js/op.js:289-347 | the row callback answers the criteria predicate |
| OpenPoints.ApplyOpFilters | js/op.js:280-348 | the method returns `FilterOps` |
| OpenPoints.FilterById | js/op.js:283-285 | the loop keeps exactly the rows with that id, in order |
| OpenPoints.FilterByCriteria | js/op.js:289-347 | the loop keeps exactly the rows meeting every criterion, in order |
| OpenPoints.PriorityRank | js/op.js:371 | ranks `low` to `critical` as 1 to 4, nothing for other texts |
| OpenPoints.StatusRank | js/op.js:372-375 | ranks the five statuses 1 to 5, nothing for other texts |
| OpenPoints.CompareRanks | js/op.js:355-357 | a missing rank compares equal to anything |
| OpenPoints.CompareFlags | js/op.js:412-414 | false sorts before true |
| OpenPoints.CompareDates | js/op.js:359-365 | converted day keys are compared; a failed conversion leaves values raw |
| OpenPoints.CompareDatesAntisymmetric | js/op.js:359-365 | on convertible dates, swapping the arguments flips the sign |
| OpenPoints.CompareOps | js/op.js:377-427 | the column comparison is -1, 0 or 1 and 0 for an unknown key |
| OpenPoints.CompareOpsAntisymmetric | js/op.js:377-427 | swapping the rows flips the sign of the comparison |
| OpenPoints.SortOpRows | js/op.js:367-428 | the sorted copy is a permutation of the rows |
| OpenPoints.SortOpRowsSorted | js/op.js:367-428 | when the dates convert, the copy is in comparator order |
| OpenPoints.DescNegates | js/op.js:369 | descending negates every ascending comparison |
| OpenPoints.UnknownKeyKeepsOrder | js/op.js:380-424 | an unknown key keeps the rows in order |
| OpenPoints.QuoteCsv | js/op.js:659-662 | the field starts with a quote exactly when the text holds `"`, a line feed or `;`; then it is the text with doubled quotes between quotes; otherwise it is the text unchanged; null is empty |
| OpenPoints.QuoteCsvRoundTrip | js/op.js:659-662 | unquoting a quoted field gives the text back |
| OpenPoints.QuoteCsvSeparatorSafe | js/op.js:659-662 | a field holding `;`, a line feed or `"` is wrapped in quotes, and inside them every quote is one of a doubled pair |
| OpenPoints.CsvFields | js/op.js:675-687 | the eleven exported field texts of an open point |
| OpenPoints.Draft | js/op.js:96-115 | a draft without title is refused; the creation date defaults to today |
| OpenPoints.SaveOp | js/op.js:92-127 | without title nothing changes; otherwise the list becomes `Upserted` with the draft |
| OpenPoints.DeleteOp | js/op.js:145-150 | every open point with that id is removed once confirmed |
| OpenPoints.ClearOps | js/op.js:133-139 | the list becomes empty once confirmed |
| OpenPoints.OpenPointsProperty | js/op.js:118 | `state.openPoints` is usable as an array exactly when it is one |
| OpenPoints.SaveOpAsWritten | js/op.js:117-122 | the save as written throws exactly when `state.openPoints` is not an array, and otherwise changes only `openPoints` |
| OpenPoints.SaveOpAsWrittenFailsOnLoadedState | js/core.js:90-100 | every state js/core.js loads has no `openPoints` array, so the save as written throws on it |
| OpenPoints.ClearOpsAsWritten | js/op.js:136-137 | the clear as written adds an empty `openPoints` beside an `op` array, which saving keeps |
| OpenPoints.ClearAsWrittenLostOnReload | js/core.js:119-124 | after the clear as written and a save, reloading gives back every open point |
| OpenPoints.OpEditsPersist | js/core.js:119-124 | any edit of `state.op` survives the save and a reload, the other collections unchanged |
| Services.TipoOf | js/svc.js:19 | the kind is SOAP exactly when the upper-cased text is SOAP, REST otherwise |
| Services.ServiceOf | js/svc.js:14-58 | a truthy id is kept, else a fresh one; the kind is always SOAP or REST |
| Services.NormalizeService | js/svc.js:14-58 | `null` fails; otherwise a service with trimmed texts |
| Services.NormalizeServiceClean | js/svc.js:14-58 | every normalised service is clean |
| Services.NormalizeServiceAliases | js/svc.js:22-54 | a legacy alias is read only when the canonical property is falsy |
| Services.NormalizeServiceIdempotent | js/svc.js:14-58 | normalising a stored normalised service gives it back |
| Services.CleanReadBack | js/svc.js:14-58 | a clean service, stored and normalised, is itself |
| Services.StoredReadBack | js/svc.js:14-58 | any object storing a clean service normalises back to it |
| Services.DefaultSvcFilterObject | js/svc.js:151-165 | the default filter holds its eleven criteria, kinds REST and SOAP |
| Services.SvcFilterPersists | js/svc.js:167-181 | a saved filter loads back over the defaults, every default key present |
| Services.Tokens | js/svc.js:347-351 | tokens are non-empty, trimmed and hold no separator |
| Services.FilterServices | js/svc.js:293-393 | the result is a subsequence holding every copy of each row meeting every criterion and no other row |
| Services.EmptyFilterKeepsAll | js/svc.js:293-393 | a filter with no criterion keeps every row |
| Services.DefaultTipiKeepNormalised | js/svc.js:326 | the default kinds let every normalised service through |
| Services.RoutineIgnoresCase | js/svc.js:314-323 | the routine and service criteria ignore the case of the typed text |
| Services.TokenIsWholePiece | js/svc.js:345-353 | a token criterion matches whole trimmed pieces between separators |
| Services.TokensHaveNoSeparator | js/svc.js:347-351 | no token holds a comma or a line feed |
| Services.SortServices | js/svc.js:410-415 | the sorted copy is a permutation of the rows |
| Services.SortServicesSorted | js/svc.js:410-415 | with an antisymmetric `localeCompare`, the copy is in column order |
| Services.UnknownColumnKeepsOrder | js/svc.js:414 | an unknown column keeps the rows in order |
| Services.SaveService | js/svc.js:89-124 | without routine or service nothing changes; otherwise the list becomes `Upserted` |
| Services.DeleteService | js/svc.js:129-135 | every service with that id is removed once confirmed |
| Crq.BhelpOf | js/crq.js:28-30 | the help text is the first truthy of the four keys, trimmed, empty when none |
| Crq.NormalizeCrq | js/crq.js:19-40 | a truthy id is kept, else a fresh one; `emerg` is the trimmed `emerg` when truthy, else the trimmed `emergenza` |
| Crq.NormalizeCrqClean | js/crq.js:19-40 | every field of a normalised CRQ is trimmed |
| Crq.NormalizeCrqEmergAlias | js/crq.js:32 | `emergenza` is read only when `emerg` is falsy |
| Crq.NormalizeCrqIdempotent | js/crq.js:19-40 | normalising a stored normalised CRQ gives it back |
| Crq.CleanReadBack | js/crq.js:19-40 | a clean CRQ, stored and normalised, is itself |
| Crq.StoredReadBack | js/crq.js:19-40 | any object storing a clean CRQ normalises back to it |
| Crq.BhelpFor | js/crq.js:206-213 | the auto-fill is the table's text for a known state and empty otherwise |
| Crq.BhelpCoversStati | js/crq.js:174-205 | the table covers exactly the nine states, each with non-empty help |
| Crq.InitialBhelp | js/crq.js:60 | the record's own help when truthy, else the table's for its state |
| Crq.DefaultCrqFilterObject | js/crq.js:139-157 | the default filter holds its fifteen criteria |
| Crq.CrqFilterPersists | js/crq.js:158-170 | a saved filter loads back over the defaults |
| Crq.FilterCrqs | js/crq.js:305-350 | the result is a subsequence; with an id every copy of each row with that id and nothing else, otherwise every copy of each row meeting every criterion and nothing else |
| Crq.AnnoIsExact | js/crq.js:323 | a row passes the year criterion only with that very year |
| Crq.EmergAccentFolded | js/crq.js:325-328 | with one accent, `ì` and `i` spellings select the same rows |
| Crq.SortCrqRows | js/crq.js:365-380 | the sorted copy is a permutation of the rows |
| Crq.SortCrqRowsSorted | js/crq.js:369-379 | the copy is in column order, always on date columns |
| Crq.DateColumnAscending | js/crq.js:371-374 | on an ascending date column consecutive dates are in string order |
| Crq.SortCrqRowsAsWritten | js/crq.js:367 | the script as written never yields a sorted copy |
| Crq.SortCrqRowsAsWrittenFails | js/crq.js:367 | as written, the result differs from the corrected sort for every input |
| Crq.CrqNewColumnDirection | js/crq.js:356-364 | a new column is descending for `dataApertura`, ascending otherwise |
| Crq.SaveCrq | js/crq.js:81-114 | saves exactly when the trimmed `rfcAperti` input is non-empty; otherwise nothing changes; when it saves, the list becomes `Upserted` with the editor's draft: the CRQ being edited is replaced keeping its id, else the draft goes first |
| Crq.DraftAsWrittenDropsBhelp | js/crq.js:85-95 | the record built from the nine inputs as written has an empty `bhelp`, `anno` and `utilizzato`, so a non-blank operator help in the editor is lost |
| Crq.CrqDraftReadsForm | js/crq.js:85-95 | the corrected draft holds every input trimmed, the operator help included, a fresh id, and empty `anno` and `utilizzato` |
| Crq.StoredFormReadBack | js/crq.js:19-40 | `normalizeCRQ` of an object holding trimmed editor inputs, and no id, year, usage or alias keys, gives back those inputs with a fresh id |
| Crq.DeleteCrq | js/crq.js:119-125 | every CRQ with that id is removed once confirmed |
| Links.TextOrDefault | js/links.js:16-18 | the text is trimmed, the trimmed default when the property is falsy |
| Links.NormalizeSectionDefaults | js/links.js:13-22 | a missing name or icon takes its default, the colour is null or truthy, texts are trimmed |
| Links.NormalizeSection | js/links.js:13-22 | a truthy id is kept, else a fresh one; `collapsed` is the truthiness of the stored value; the colour is null exactly when the stored one is falsy |
| Links.SectionStoredReadBack | js/links.js:13-22 | any object storing a clean section normalises back to it |
| Links.SectionReadBack | js/links.js:13-22 | a clean stored section normalises back to itself |
| Links.NormalizeSectionIdempotent | js/links.js:13-22 | normalising twice is normalising once when name and icon are not blank |
| Links.BlankNameNotStable | js/links.js:16 | a blank name normalises to "" and then to the default, so idempotence fails there |
| Links.EmptyNameDefaults | js/links.js:16 | an empty name normalises to "Senza nome" |
| Links.SectionColor | js/links.js:1034-1038 | null when unset, a string as is, an object's truthy `c1`, else null |
| Links.TagsOf | js/links.js:30-32 | tags are non-empty trimmed texts, empty when not an array |
| Links.NormalizeLink | js/links.js:24-35 | a truthy id is kept, else a fresh one; the section id is null exactly when the stored one is falsy |
| Links.LinkStoredReadBack | js/links.js:24-35 | any object storing a clean link normalises back to it |
| Links.LinkReadBack | js/links.js:24-35 | a clean stored link normalises back to itself |
| Links.NormalizeLinkIdempotent | js/links.js:24-35 | normalising twice is normalising once when the ids are not empty |
| Links.EscapeHtml | js/links.js:1020-1028 | the output holds no `<`, `>`, `"` or `'` |
| Links.EscapeHtmlRoundTrip | js/links.js:1020-1028 | decoding the entities gives the text back |
| Links.Swap | js/links.js:429-431 | the two cells exchange and the multiset and other cells are kept |
| Links.Swapped | js/links.js:423-431 | the swap keeps the length and the multiset of sections |
| Links.SwapAt | js/links.js:425-431 | with the section at `idx`, only the two exchanged cells change; a missing section or a target out of bounds changes nothing |
| Links.SwapFindsMoved | js/links.js:424 | after the swap the section is found at its new index |
| Links.SwappedBack | js/links.js:423-431 | with distinct ids, moving and moving back restores the list |
| Links.MoveSection | js/links.js:423-436 | the sections become `Swapped` of the old ones |
| Links.Reassigned | js/links.js:542-546 | links of the deleted section point to the target, the rest are unchanged |
| Links.ReassignedMovesOnlyThatSection | js/links.js:542-546 | only links of the deleted section change, and only in their section |
| Links.DeleteSection | js/links.js:527-553 | refused with one section, an unknown id or no confirmation; otherwise the section is removed and its links go to the first other section |
| Links.DeletionLeavesNoDanglingLink | js/links.js:539-548 | after a deletion no link refers to the deleted id and the reassigned ones point to a remaining section |
| Links.SpliceIn | js/links.js:992 | the id is inserted at the clamped index, a negative one counting from the end |
| Links.Retargeted | js/links.js:994-996 | the dragged link takes the target section, others unchanged |
| Links.DropOrderPermutes | js/links.js:994-1009 | the drop is a permutation of the retargeted links |
| Links.DropOrderGroups | js/links.js:998-1009 | other sections' links come first in order, the target's follow by card position |
| Links.DropOrderRetargets | js/links.js:994-996 | the dragged link carries the target section wherever it lands |
| Links.Drop | js/links.js:977-1014 | the links become `DropOrder` of the old ones |
| Links.Notes | js/links.js:101-126 | the entries of a group are records of the input classified into it, in order |
| Links.NotesMembers | js/links.js:101-126 | every entry of a group is a record with that group's notice and icon |
| Links.NotesPartition | js/links.js:101-126 | the three groups together hold exactly the records with a notice |
| Links.WeekDay | js/links.js:94 | the weekday is 0 to 6, Sunday 0 |
| Links.WorkingDaysDiff | js/links.js:90-99 | the loop counts the Monday-Friday days in [d1, d2] minus one, -1 when d1 > d2 |
| Links.WorkingDays | js/links.js:90-99 | no days when the start is after the end; at least one when the start is a working day |
| Links.WeekHasFiveWorkingDays | js/links.js:95 | seven consecutive days hold five working days |
| Links.OpNoticeRules | js/links.js:101-126 | completed has no notice, no deadline is green, overdue is red, yellow exactly when open with a valid date and `workingDaysDiff` between 0 and 3 (so never overdue), a week away has none |
| Links.OpNotice | js/links.js:101-126 | a completed open point has no notice, and a green one has no deadline |
| Links.ClassifyOp | js/links.js:102-125 | the callback returns `OpNotice` of the open point |
| Links.ComputeOpNotifications | js/links.js:101-129 | the three groups are `Notes` of the open points |
| Links.CrqNoticeRules | js/links.js:452-520 | draft without date green; no date none; low states yellow iff before the previous Tuesday else red; revision yellow iff before release else red; late-ok green iff on or after release |
| Links.CrqNotice | js/links.js:452-520 | a notice without release date is the green draft one; a green notice with a date is for a late-ok state |
| Links.ComputeCrqNotifications | js/links.js:438-524 | the three groups are `Notes` of the CRQs |
| Links.NotificationCount | js/links.js:131-139 | the count is the number of records with a notice, never more than the records |
| Legacy.LegacyShape | app.js:99-105 | each collection is the array under its key or empty; open points come only from `openPoints` |
| Legacy.LegacyObject | app.js:64-72 | the older state has exactly the keys sections, links, openPoints, services, crq |
| Legacy.LegacyLoadState | app.js:93-110 | a missing, unparsable or null item loads the empty state |
| Legacy.LegacyLoadAfterSave | app.js:93-110 | an older save loads back unchanged |
| Legacy.GenerationsCompatibility | app.js:99-105 | the current client reads an older save completely; the older one loses the open points of a current save |
| Legacy.LocalSaveSuppressesPush | app.js:149-156 | a push less than 6000 ms after a local save sends nothing |
| Legacy.LegacyPull | app.js:180-216 | unconfigured, failed or non-object responses leave the state; an object or array replaces every collection |
| Legacy.EmptyObjectWipesState | app.js:204-216 | an ok `{}` response empties every collection |
| Legacy.LegacyClient.LoadFromRepo | app.js:204-218 | the state changes only to a loaded one, which is then scheduled for the local save; a failed pull changes nothing |
| Legacy.LegacyClient.constructor | app.js:134-135 | start-up loads the stored state and schedules its save |
| Legacy.LegacyClient.FlushLocalSave | app.js:115-120 | a pending save that is due writes the text and the save time once and is cleared; otherwise nothing changes |
| Legacy.RemoveAt | app.js:1210 | one fewer element, that element removed from the multiset |
| Legacy.InsertAt | app.js:1220 | the element is at the index, added to the multiset, and removing it gives the list back |
| Legacy.RelativeSlot | app.js:1212-1219 | the insertion point is clamped to the list without the dragged link |
| Legacy.MoveNextTo | app.js:1202-1220 | the move keeps the length |
| Legacy.MovedRelative | app.js:1196-1224 | an unknown id changes nothing; the length is kept |
| Legacy.MoveNextToPermutes | app.js:1202-1220 | the dragged link is replaced by its retargeted copy at the insertion point and the others keep their order |
| Legacy.MoveNextToTarget | app.js:1212-1220 | with two different links the dragged one ends right after or right before the target, in its section |
| Legacy.MoveLinkRelative | app.js:1196-1224 | the links become `MovedRelative` of the old ones |
| Legacy.LastIndex | app.js:1236-1239 | the last index satisfying the predicate, none after it, -1 when none |
| Legacy.EndSlot | app.js:1236-1241 | the insertion point lies within the list |
| Legacy.MoveToEnd | app.js:1230-1242 | the move keeps the length |
| Legacy.ToSectionEnd | app.js:1226-1246 | an unknown id changes nothing; the length is kept |
| Legacy.MoveToEndPlacement | app.js:1230-1242 | the link lands after the section's last link or at the end, takes the section, no link of it follows, others keep their order |
| Legacy.LastInSection | app.js:1236-1239 | the loop returns `LastIndex`: the last index of a link in the section, -1 when there is none |
| Legacy.MoveLinkToSectionEnd | app.js:1226-1246 | the links become `ToSectionEnd` of the old ones |
| Legacy.Reattached | app.js:3462-3467 | an imported link keeps its normalised fields and points to an existing section or to the first one |
| Legacy.NormalizedSections | app.js:3457-3459 | one normalised section per imported one |
| Legacy.ReattachedLinks | app.js:3461-3468 | one re-attached link per imported one |
| Legacy.ImportFolder | app.js:3447-3469 | nothing without files; sections replaced when read, then links re-attached to the sections now present |
| Legacy.ImportedLinksAttached | app.js:3461-3469 | every imported link points to an existing section, or to none only when there are no sections |
| Legacy.CsvField | app.js:3580 | no field holds `;`; null is empty; a text without `;` is unchanged |
| Legacy.RowFields | app.js:3580 | one field per value, none holding `;` |
| Legacy.ExportCsv | app.js:3570-3583 | nothing is exported exactly when there are no CRQs |
| Legacy.CsvRowSplits | app.js:3579-3581 | splitting an exported line on `;` gives back exactly its fields |

## Left out

- The DOM: rendering, dialogs, toasts, event wiring, drag geometry, the notification HTML and the XLS builders. js/router.js and js/main.js are not part of this model.
- Browser and library services are parameters: `JSON.parse`/`stringify`, `fetch`, `localeCompare`, `crypto.randomUUID`, `Date` conversions, `tuesdayOfPreviousWeek`, base64 and `encodeURIComponent`. Time zones, daylight saving and the local-time `getDay` of the source are replaced by UTC weekdays of millisecond instants.
- The `setTimeout` debounce is a single pending save with a due time. Overlapping pushes, `Promise.all` concurrency and races at the backing store are not modelled.
- Records in the state are values. Aliasing is not modelled: the source edits a dragged link object that other parts of the page may still hold.
- Case mapping covers ASCII only.
- `getCrqStato`, `getCrqRilascio` and the other `getCrq*` helpers are not defined in the source files. They are read as the `stato` and `dataRilascio` fields.
- A CRQ state named like an `Object.prototype` member (`constructor`, `toString`) would find an inherited value in `CRQ_BHELP_MAP`. The table lookup here sees only the nine states.
- Guards such as `Array.isArray(rows)` in the sort and filter functions, and `Array.isArray(state.services)` before an upsert, are not modelled. The collections are sequences.
- Legacy.ImportFolder: the open points, services and CRQ of a folder import go through app.js's own normalisers and are not modelled. Neither are the discovery and reading of the files, and the reset of the stored filters. A `links` or `sections` value that is truthy but not an array (where `.map` throws) is not modelled.
- Legacy.ExportCsv: the keys and values of a record are given as a list of pairs in property order. Values are JSON values passed through `String(v)`.
- The copies of the links, open-point, service, CRQ and router code inside app.js are not modelled twice. Each comes from its js/ file.
- OpenPoints.NormalizeOpIdempotent: holds only when the normalised id, priority and status are non-empty. A fresh id and the defaults guarantee this in practice.
- Services.NormalizeServiceIdempotent, Crq.NormalizeCrqIdempotent and Links.NormalizeLinkIdempotent: hold only when the normalised id is non-empty (and, for links, the section id too). An empty text is falsy, so it would be replaced by a fresh id.
- Links.NormalizeSectionIdempotent: holds only when the name and icon are not blank (see Links.BlankNameNotStable).
- Crq.EmergAccentFolded: stated for texts with at most the one accented letter that `replace` folds. `replace` with a string changes only the first `ì`.
- Core.PushGate: `Number` on the stored time is modelled for optional signs and decimal digits around white space only. JavaScript also reads "1e3", "0x10", "1.5" and "Infinity" (which blocks every push); the client only ever stores integer digits there.
- Core.RecentPush: the same integer-only reading of the stored time as Core.PushGate.
- Core.PushSuppressedAfterPush: stated for the time text the client itself stores, `String(Date.now())`; another text under the key is read with the integer-only `Number` above.
- OpenPoints.SaveOp: edits the collection the state holds, `state.op`; the lines as written use `state.openPoints` and throw on that state (see "## Findings").
- OpenPoints.DeleteOp: edits `state.op`; the line as written filters `state.openPoints`, which throws on the loaded state (see "## Findings").
- OpenPoints.ClearOps: clears `state.op`; the line as written assigns `state.openPoints`, which the save does not carry into `op`, so the clear is lost on reload (see "## Findings").
- The open-point JSON import (js/op.js:622-651) is not part of this model. It assigns `state.openPoints` as the clear does, so it is lost on reload in the same way (see "## Findings").
- Links.ComputeOpNotifications: classifies the open points of `state.op`; the line as written iterates `state.openPoints`, which throws on the loaded state (see "## Findings").
- Crq.SaveCrq: an edit replaces the record with the editor's draft, so its `anno` and `utilizzato`, which the editor has no inputs for, become empty, as in the source.
- Numbers in the JSON values are integers (`JNum(n: int)`). `String(v)` and truthiness of fractions, exponents and `NaN` are not modelled, so the normalisers, filters, CSV fields and exports see only integer numbers.
- Strings.LexLess and Strings.CompareStrings: compare by Unicode code point. JavaScript's `<` compares UTF-16 code units, so characters outside the Basic Multilingual Plane order differently against those from U+E000 to U+FFFF.
- Listing.KeyedSortSorted, Services.SortServicesSorted and Crq.SortCrqRowsSorted: need `localeCompare` to be antisymmetric, which the locale oracle does not guarantee by itself.

## Findings

| source | as written | input that shows it | evidently intended | confidence | as-written member | corrected member |
|---|---|---|---|---|---|---|
| js/op.js:118-121 | the open-point screen reads and writes `state.openPoints` (also js/op.js:136 and 147, js/links.js:101), but the state js/core.js loads holds open points only under `op` | any stored state: the save's `state.openPoints.findIndex`/`unshift` throws; a clear assigns `openPoints = []` beside a non-empty `op`, and the reload gives the open points back | the open-point screen edits `state.op` | not executed | OpenPoints.SaveOpAsWritten, OpenPoints.SaveOpAsWrittenFailsOnLoadedState, OpenPoints.ClearOpsAsWritten, OpenPoints.ClearAsWrittenLostOnReload | OpenPoints.SaveOp, OpenPoints.DeleteOp, OpenPoints.ClearOps, OpenPoints.OpEditsPersist |
| js/crq.js:367 | `the d = crqSort.dir === 'desc' ? -1 : 1;` is not a declaration, so the file does not parse and none of js/crq.js is defined | any rows, any sort setting: loading the script fails before `sortCrqRows` exists | `const d = …`, a sorted copy of the rows | not executed | Crq.SortCrqRowsAsWritten, Crq.SortCrqRowsAsWrittenFails | Crq.SortCrqRows, Crq.SortCrqRowsSorted |
| js/crq.js:85-95 | `saveCrqDialog` builds the record from nine editor inputs and never reads `#crqBhelp`, which `openCrqDialog` fills (js/crq.js:60) and the state selector keeps in step (js/crq.js:206-214) | any save with a non-blank operator help, such as stato "Chiuso" with help "Chiuso Deploy": the saved CRQ has `bhelp` "" | the operator help shown in the editor is saved with the record | not executed | Crq.CrqDraftAsWritten, Crq.DraftAsWrittenDropsBhelp | Crq.CrqDraft, Crq.CrqDraftReadsForm, Crq.SaveCrq |
