# Metadata management app: loading and browsing the tier hierarchy

This Dafny project models the loading and browsing core of an Ionic app used to manage sensor-network metadata. The app works on an ontology, which is an ordered list of tiers. Each tier has a name, a plural label and a list of characteristics. Each tier also has a remote collection of records.

The model covers three pages.

- **The hierarchy controller** (`Controller.HierarchyController`) loads the ontology, then the records of every tier, and finally opens the hierarchy page.
  - Progress is kept in six session-wide flags: synced, loaded and done-loading, for the ontology and for the data.
  - Loading screens are kept on a stack.
  - On an error it shows a notice, clears flags and goes home.
- **The hierarchy page** (`Hierarchy.HierarchyPage`) shows one level of the tier tree.
  - Its depth comes from the page that opened it.
  - It fetches the ontology and takes the tier at that depth as its header.
  - It fetches that tier's records, and pushes the next level only while a deeper tier exists.
- **The edit page** (`Edit.EditPage`) derives a photo preview from a record and rewrites the record's date fields, in place, into display text.

The module `Ontology` holds the tiers and the endpoint derivation that the controller and the hierarchy page share. A tier's endpoint is its plural label with every run of spaces removed, placed between the service base URL and `.svc/Get`. The module `Js` holds the few JavaScript value semantics the pages rely on:
- fields that may be missing or null;
- the text that `'' + v` produces.

### Responses as steps

HTTP responses and storage reads are not modelled as timing. Each one is a method of its own that may be called whenever its request is outstanding:
- `OntologyArrives` and `OntologyFails`;
- `TierArrives` and `TierFails`;
- `LocalDataArrives`;
- `DataArrives` on the hierarchy page.

`loadAll` is asynchronous, so it is cut where it gives way:
- `LoadAll` is the part before `await this.loadDataWaiting()` yields, and the constructor runs it. Its first yield, at `await this.getOntology()`, is a microtask, during which no response can arrive;
- `ResumeLoadAll` is what runs once `await this.loadDataWaiting()` resumes;
- `FinishLoadAll` is what runs once both polling loops have stopped.

The polling loops themselves are replaced by the precondition of `FinishLoadAll`: each loop's exit condition holds.

### getData as one Dispatch value

`getData` sends every request before any response can arrive. What the loop has done after `n` tiers is the function `DispatchTiers`, and the loop is proved against it. Four lemmas then say what that function means:
- the requests sent, in order;
- the outstanding replies per slot;
- the service roots per slot;
- the update marks per slot.

The loop counter `i` that the response callbacks read is modelled as the field `loopCounter`. By the time any response arrives it equals the tier count, so the first successful tier response marks all data as done. This quirk is modelled as written: `FirstTierReplyMarksDataDone` proves the data is marked done while every other tier is still outstanding.

The providers are session-wide. A page therefore starts from a `Providers` value, and `ProviderState` hands the provider state on to the next page. That is how the retry scenarios are stated. The hand-over is a copy, so the two pages do not share the providers afterwards (see the section Left out below).

### Quirks of the code that the model keeps

The model keeps each of these as the code has it:
- **Offline load.** The code never reads the saved records when offline. It shows a `Connection` error, clears only the data flags and goes home (`OfflineLoad`).
- **Ontology flags.** `getOntology` marks the ontology loaded and synced as soon as the request is sent, not on success.
- **Ontology fetch skip.** The ontology is not fetched when it is synced OR when it is loaded.
- **Saved records.** These are read when the data is synced but not loaded. Data that is loaded is never fetched again, whether synced or not.
- **Tier errors.** A tier error (and the offline error) clears only the three data flags. All six flags are cleared only for the ontology error, whose load page is `hierarchy`. A tier whose plural label is literally `hierarchy` clears all six.
- **Done marking.** `dataDoneLoading` is set by the first successful tier response, not after the last one.
- **Order of fetches.** `getOntology` returns once its request is sent, not once the ontology has arrived. The tier fetches are issued when `loadAll` resumes after `await this.loadDataWaiting()`, with whatever tier list the provider holds at that moment. The model lets the ontology response arrive before or after `ResumeLoadAll`. If it arrives after, in a fresh session, no tier is ever requested and the page never finishes loading (`FetchBeforeOntology`, and the Findings section below).
- **Resuming after a failed ontology load.** `loadAll` catches a failed `getOntology`, but an error reported by the ontology response arrives later, while `loadAll` waits at `await this.loadDataWaiting()`. It then resumes and runs `getAllData`, which marks the data synced and loaded again after the error cleared every flag. The Findings section below records it.
- **Flag timing in getAllData.** In the code, `getAllData` sets the data flags after the first loop iteration of `getData` yields, while the rest of the loop finishes before any response. Nothing can observe the difference, so `GetAllData` runs the whole loop first.

## Model

| member | source | states |
|---|---|---|
| Js.IntText | src/pages/hierarchy/edit/edit.ts:123 | the text of an integer reads back as that integer: digits for a non-negative number, a '-' and the digits of its magnitude otherwise; the digits are canonical, with no leading zero except for 0 itself |
| Js.NatTextRoundTrip | src/pages/hierarchy/edit/edit.ts:123 | parsing the decimal text of a natural number gives the number back |
| Ontology.StripSpaces | src/pages/hierarchy-controller/hierarchy-controller.ts:457 | the endpoint name contains no space and is no longer than the plural label |
| Ontology.StripSpacesIsNonSpace | src/pages/hierarchy-controller/hierarchy-controller.ts:457 | removing space runs one match at a time equals removing exactly the spaces and keeping every other character in order |
| Ontology.NonSpaceKeepsOthers | src/pages/hierarchy-controller/hierarchy-controller.ts:457 | every character other than a space survives as often as it occurs, and no space survives |
| Ontology.NonSpaceAppend | src/pages/hierarchy-controller/hierarchy-controller.ts:457 | space removal distributes over concatenation, so characters keep their order |
| Ontology.GetUriSameExactlyWhenNamesAgree | src/pages/hierarchy/hierarchy.ts:83-84 | two labels give the same fetch URL if and only if they agree once spaces are removed |
| Edit.Pad | src/pages/hierarchy/edit/edit.ts:121-126 | below ten the result is '0' followed by the number's text; otherwise the number itself; for 0..99 the result is two digits that read back as the number |
| Edit.NonDateFieldUnchanged | src/pages/hierarchy/edit/edit.ts:55-64 | a field that no date characteristic labels is present, and holds its value, exactly as before |
| Edit.DatesRewrittenKeys | src/pages/hierarchy/edit/edit.ts:55-64 | the record keeps all its fields and gains exactly the labels of the date characteristics |
| Edit.LoneDateFieldRewritten | src/pages/hierarchy/edit/edit.ts:58-62 | a field labelled by exactly one date characteristic becomes the display text of its original value |
| Edit.EditPage.EditDateFields | src/pages/hierarchy/edit/edit.ts:50-65 | the record becomes the in-order rewrite of the date characteristics applied to the old record |
| Edit.EditPage.constructor | src/pages/hierarchy/edit/edit.ts:35-47 | a preview exists exactly when the record's Photo is neither null nor missing, and then it is the PNG data-URL prefix followed by the photo's text; the record's date fields are rewritten |
| Hierarchy.HierarchyPage.constructor | src/pages/hierarchy/hierarchy.ts:32-45 | the depth is 0 for a missing or null parameter and the parameter otherwise; the ontology is requested for that depth |
| Hierarchy.HierarchyPage.GetHierarchyData | src/pages/hierarchy/hierarchy.ts:53-68 | one request for the ontology file, answered for the given depth |
| Hierarchy.HierarchyPage.OntologyArrives | src/pages/hierarchy/hierarchy.ts:69-97 | both branches set the header to `result[depth]`, the maximum index to the tier count and the depth to depth + 1; only the online branch with a header builds the fetch URL and requests it; otherwise the URL and requests are untouched |
| Hierarchy.HierarchyPage.GetNextData | src/pages/hierarchy/hierarchy.ts:101-105 | one request to the current fetch URL |
| Hierarchy.HierarchyPage.DataArrives | src/pages/hierarchy/hierarchy.ts:106-110 | the page's records become the response |
| Hierarchy.HierarchyPage.Push | src/pages/hierarchy/hierarchy.ts:119-126 | the next level is opened, with the current depth and the item's name followed by " - ", exactly when the depth is at most the maximum index minus one; a push only happens while a deeper tier exists |
| Hierarchy.HierarchyPage.ViewCharacteristics | src/pages/hierarchy/hierarchy.ts:133-140 | the record view is opened with header, URL and records exactly when online |
| Hierarchy.DescendFromRoot | src/pages/hierarchy/hierarchy.ts:34-44 | starting at the root, push opens a second level exactly when the ontology has two tiers, and that level's header is the second tier at depth 2 |
| Controller.DispatchSends | src/pages/hierarchy-controller/hierarchy-controller.ts:450-464 | after n iterations one request per tier 0..n-1 has been sent, in tier order, to that tier's fetch URL, and the last URL built is the last tier's |
| Controller.DispatchReplies | src/pages/hierarchy-controller/hierarchy-controller.ts:453-481 | after n iterations each slot 0..n-1 awaits one response labelled with its own tier; other slots are unchanged |
| Controller.DispatchRoots | src/pages/hierarchy-controller/hierarchy-controller.ts:459 | after n iterations each slot 0..n-1 holds the service root of its own tier; other slots are unchanged |
| Controller.DispatchStatus | src/pages/hierarchy-controller/hierarchy-controller.ts:483 | after n iterations each slot 0..n-1 is marked not updated; other slots are unchanged |
| Controller.HierarchyController.constructor | src/pages/hierarchy-controller/hierarchy-controller.ts:39-42 | the page starts from the provider state and runs the start of loadAll: online, it requests the ontology only when neither synced nor loaded; offline, it reports a Connection error and goes home |
| Controller.HierarchyController.LoadAll | src/pages/hierarchy-controller/hierarchy-controller.ts:60-67 | online, both loading screens are pushed and getOntology runs; offline, a Connection error clears only the data flags and sends the user home with no request |
| Controller.HierarchyController.ResumeLoadAll | src/pages/hierarchy-controller/hierarchy-controller.ts:67-69 | getAllData runs, even after an error: all tiers are fetched and the loop counter and bound end at the tier count when data is neither synced nor loaded; saved records are awaited when synced but not loaded; otherwise nothing is sent and the counter and bound are kept |
| Controller.HierarchyController.ResumeLoadAllUnlessFailed | src/pages/hierarchy-controller/hierarchy-controller.ts:65-69 | the corrected resumption: a load that has already failed sends nothing and leaves every flag as the error left it; otherwise it does what getAllData does |
| Controller.HierarchyController.FinishLoadAll | src/pages/hierarchy-controller/hierarchy-controller.ts:70-86 | both loading screens are popped, leaving the stack empty; the hierarchy page is opened at the first tier, as TEST or NRDC by isTest, only without an error |
| Controller.HierarchyController.GoHierarchyPage | src/pages/hierarchy-controller/hierarchy-controller.ts:111-145 | the hierarchy page becomes the root, labelled with the first tier's plural, when a first tier exists |
| Controller.HierarchyController.GoHome | src/pages/hierarchy-controller/hierarchy-controller.ts:151-154 | the home page becomes the root |
| Controller.HierarchyController.ShowError | src/pages/hierarchy-controller/hierarchy-controller.ts:173-204 | isError is set; load page `hierarchy` clears all six flags, any other clears only the three data flags; the loading-screen stack ends as it began; one notice is shown and the user goes home |
| Controller.HierarchyController.GetOntology | src/pages/hierarchy-controller/hierarchy-controller.ts:229-242 | no request when synced or loaded; otherwise one request, and loaded and synced are set before any response |
| Controller.HierarchyController.GetHierarchyData | src/pages/hierarchy-controller/hierarchy-controller.ts:391-401 | one request for the ontology file, and the ontology is not done until it answers |
| Controller.HierarchyController.OntologyArrives | src/pages/hierarchy-controller/hierarchy-controller.ts:402-411 | the tiers become the response, the ontology is done and they are saved under `ontology` |
| Controller.HierarchyController.OntologyFails | src/pages/hierarchy-controller/hierarchy-controller.ts:413-416 | an ontology error: every flag cleared, one notice, home |
| Controller.HierarchyController.GetAllData | src/pages/hierarchy-controller/hierarchy-controller.ts:266-295 | the four cases of synced and loaded: fetch every tier and set both flags, await the saved records, or change nothing |
| Controller.HierarchyController.GetData | src/pages/hierarchy-controller/hierarchy-controller.ts:441-485 | the requests, outstanding replies, service roots, update marks and last URL become those of running the loop over every tier; the loop counter ends at the tier count |
| Controller.HierarchyController.TierArrives | src/pages/hierarchy-controller/hierarchy-controller.ts:467-476 | the records go to the tier's own slot and to no other; the data is marked done exactly when the loop counter equals the tier count, which it always does |
| Controller.HierarchyController.TierFails | src/pages/hierarchy-controller/hierarchy-controller.ts:477-480 | a notice names the tier's plural label; when that label is `hierarchy` all six flags are cleared, otherwise only the data flags |
| Controller.HierarchyController.LocalDataArrives | src/pages/hierarchy-controller/hierarchy-controller.ts:284-292 | the records become the saved `localDataObject`; isTest, dataDoneLoading and dataLoaded are set |
| Controller.HierarchyController.LoadOntologyWaiting | src/pages/hierarchy-controller/hierarchy-controller.ts:332-339 | pushes one loading screen |
| Controller.HierarchyController.LoadDataWaiting | src/pages/hierarchy-controller/hierarchy-controller.ts:361-368 | pushes one loading screen |
| Controller.OfflineLoad | src/pages/hierarchy-controller/hierarchy-controller.ts:88-91 | offline: no request, one Connection notice, home, and the ontology flags untouched |
| Controller.LoadFromScratch | src/pages/hierarchy-controller/hierarchy-controller.ts:60-69 | from a fresh session, when the ontology arrives before loadAll resumes, every tier of it awaits exactly one response under its own slot |
| Controller.FetchBeforeOntology | src/pages/hierarchy-controller/hierarchy-controller.ts:60-69 | as written: from a fresh session, when loadAll resumes before the ontology arrives, only the ontology is ever requested, the data is marked synced and loaded, nothing is awaited, and the data is never done and no error occurs, so the wait for the data never ends |
| Controller.FirstTierReplyMarksDataDone | src/pages/hierarchy-controller/hierarchy-controller.ts:472-475 | after the first tier answers, the data is done while tiers 1.. are still outstanding, and the load ends on the hierarchy page |
| Controller.RetryAfterOntologyError | src/pages/hierarchy-controller/hierarchy-controller.ts:177-185 | after an ontology error that arrives once loadAll has resumed, the first page goes home and the next page requests the ontology again and then every tier, in order |
| Controller.RetryAfterEarlyOntologyError | src/pages/hierarchy-controller/hierarchy-controller.ts:65-69 | as written: after an ontology error that arrives before loadAll resumes, the next page requests the ontology and nothing else, and once its ontology arrives it awaits no data, has no data done and no error |
| Controller.RetryAfterEarlyOntologyErrorIntended | src/pages/hierarchy-controller/hierarchy-controller.ts:65-69 | corrected: the same schedule with the failed load stopping, after which the next page requests the ontology and then every tier in order, each awaiting one response |
| Controller.RetryAfterTierError | src/pages/hierarchy-controller/hierarchy-controller.ts:186-191 | after a tier error the next page does not request the ontology again but requests every tier again, in order |
| Controller.CachedLoad | src/pages/hierarchy-controller/hierarchy-controller.ts:280-292 | with data synced but not loaded, nothing is requested, the saved records are taken and the hierarchy page opens in test mode |

Helpers without a row of their own:
- `Ontology.ServiceUri` and `Ontology.GetUri` (hierarchy-controller.ts:459 and 462, hierarchy.ts:84) are stated by `GetUriSameExactlyWhenNamesAgree`, `DispatchSends` and `DispatchRoots`.
- `Js.Text`, the `'' + v` conversion, is stated by the `Edit.Pad` and `Edit.EditPage.constructor` rows and used by `HierarchyPage.Push`. `TierFails` passes the plural label on unchanged, which stands in for `'' + Plural` on a label that is already a string.
- `Controller.StoredRecords` (hierarchy-controller.ts:284-288) is stated by the `LocalDataArrives` and `CachedLoad` rows.
- `Ontology.GetUriParts`, `Hierarchy.TierAt`, `Edit.ImageFor` and `Controller.DispatchAll` are used inside the proofs of listed rows.
- `StartFresh`, `ResumeUnsynced`, `FetchAfterOntology` and `EarlyOntologyError` in `Controller` are steps shared by the scenario rows.

## Left out

- HTTP and Observable timing are replaced by explicit delivery steps. Within one page, the outstanding requests may be answered in any order, and no response is delivered twice.
- Controller.HierarchyController.ProviderState: the next page gets a copy of the providers, not a shared reference. In `RetryAfterOntologyError`, `RetryAfterTierError`, `RetryAfterEarlyOntologyError` and `RetryAfterEarlyOntologyErrorIntended`, a reply to the earlier page that arrives after the later page has started is therefore not delivered. In the code, such a late tier reply would set the shared `dataDoneLoading`, and a late tier error would clear the shared data flags and go home. Likewise, the root reset done by `goHome` on the earlier page does not affect the later one.
- The polling loops (`delay` and the two `while` loops in `loadAll`) are replaced by the precondition of `FinishLoadAll`. A load whose flags never become true simply never finishes.
- Loading-screen presentation and dismissal (`present`, `dismiss`, durations) are left out. The stack's contents are modelled; its display is not.
- Navigation is recorded as a list of destinations: roots for the controller, pushed pages for the hierarchy page. Navigation parameters other than depth, name and path name are left out.
- Storage is an abstract key-to-value map. A `localDataObject` that is absent or holds no records reads as an empty record map.
- The providers (global variables, hierarchy-controller flags, global data handler) are plain fields with their trivial getters and setters. The online flag is a constructor parameter.
- Edit.EditPage: `displayTime` depends on the clock and the time zone, so it is an uninterpreted parameter of the page.
- Js.IntText: JavaScript numbers are modelled as integers everywhere (`Js.Text`, `Edit.Pad`, the tier slots). Fractions, NaN, `Invalid Date` and the exponent form used for magnitudes of 1e21 and above are left out.
- Edit.EditPage: the record is the page's own value. In the code, `dataObject` is the same object as the record of the page that opened the editor, so the rewrite of the date fields is seen by that page too; the model does not capture this aliasing.
- Edit.EditPage: only a record's fields are modelled. Other parts of the edit page (saving, the photo picker) are not part of this model.
- The login page, the read page, `HierarchyPage.goHome` and the home page are not part of this model.
- Controller.HierarchyController.OntologyArrives: the response is taken to be a parsed tier list. A malformed response is left out.
- The rethrow after an ontology error in the response callback has no effect on the page state, so it is left out.

## Findings

| source | as written | input that shows it | evidently intended | confidence | as-written member | corrected member |
|---|---|---|---|---|---|---|
| src/pages/hierarchy-controller/hierarchy-controller.ts:65-69 | an ontology error reported by the response clears every flag, but `loadAll` then resumes and `getAllData` marks the data synced and loaded again (lines 272-273) | a fresh session with no tiers yet; the ontology request fails before `loadAll` resumes; the next page gets its ontology | a failed load stops (`ResumeLoadAllUnlessFailed`), so the next page fetches the ontology and then every tier | not executed | Controller.RetryAfterEarlyOntologyError | Controller.RetryAfterEarlyOntologyErrorIntended |
| src/pages/hierarchy-controller/hierarchy-controller.ts:65-68 | `await this.getOntology()` does not wait for the response, because `getHierarchyData` returns once it has subscribed (lines 399-416); `getAllData` can then walk an empty tier list and still mark the data synced and loaded | a fresh session with no tiers yet; the data loading screen is shown before the ontology response arrives | `loadAll` resumes only once the ontology has arrived, so every tier of it is requested | not executed | Controller.FetchBeforeOntology | Controller.LoadFromScratch |

For the first row: the two resumptions differ only on a page whose load has already failed. Every other scenario resumes a page without an error, where they agree, and uses `ResumeLoadAll` as written. For the second row, the corrected behaviour needs no operation of its own. It is the order of steps `LoadFromScratch` takes: the ontology arrives, then `loadAll` resumes.
