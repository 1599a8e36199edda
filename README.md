# jobtalk: job search filter and transcription route, in Dafny

This project models the two pieces of logic in the jobtalk job-search app.

- **The search page filter** (`JobSearch`, `job_search.dfy`). The page filters the loaded job
  list by the search term. An empty term shows every job. Otherwise the term is lowered, and a
  job is shown when its lowered title, company or location includes it. The filter is pure, so
  it is modelled by functions: `ToLower`, `Includes` (the `includes` scan), `Keep` (the
  `Array.filter` call) and `FilterJobs`.
- **The `POST /api/transcribe` route** (`TranscribeRoute`, `transcribe_route.dfy`). The route
  parses the multipart form, picks the audio file and the language, and transcodes the staged
  upload to `<path>.wav`. It then sends that file to the speech recognizer with model
  `mansa_v1`, deletes both temporary files and answers `{text}`. Any exception ends in
  status 500 with `{error: "Failed to process audio."}`.
  - The handler is imperative. It is modelled by class `Route`, which holds the set of
    temporary paths on disk and a log of outbound calls. Its method `Post` runs the stages and
    returns early where the source throws.
  - `Post` is proved equal to the pure function `Handle`, which describes one request stage by
    stage. The lemmas about `Handle` state the route's control flow.
  - The form parser, the transcoder, the recognizer and `unlinkSync` are not run. Each is the
    outcome it reports, given in `Collaborators`.

Two behaviours of the route are worth knowing:

- **Cleanup runs only on the success path.** The handler deletes the temporary files only after
  the recognizer has returned text. A transcoding or recognition failure leaves the staged file
  on disk, and the converted file too when it was written (`NoCleanupOnFailure`). When the first
  deletion throws, the second is never tried (`FirstUnlinkFailureStopsCleanup`).
- **A missing `language` field is not defaulted.** `fields.language[0]` throws when the field is
  absent, so the request fails with 500 before any transcoding (`MissingLanguageMakesNoCalls`).
  The default `"en"` applies only when the field is present and its first value is empty or
  missing. Neither the search page nor the profile page sends `language`, so as written every
  request from the app ends in that 500 answer.

## Model

| member | source | states |
|---|---|---|
| `JobSearch.ToLower` | src/app/search/page.tsx:39 | lowering keeps the length, turns each upper-case ASCII letter into its lower-case letter (code point plus 32), leaves no upper-case ASCII letter and leaves every other character as it was |
| `JobSearch.LowerChar` | src/app/search/page.tsx:39 | no contract of its own; the lowering of one character, stated by `ToLower` |
| `JobSearch.ToLowerIdempotent` | src/app/search/page.tsx:39-43 | lowering an already lowered string changes nothing |
| `JobSearch.Includes` | src/app/search/page.tsx:41-43 | no contract of its own; the `includes` scan, stated by `IncludesIsSubstring` and `IncludesEmpty` |
| `JobSearch.IncludesIsSubstring` | src/app/search/page.tsx:41-43 | the `includes` scan is true exactly when the needle occurs at some position of the haystack |
| `JobSearch.IncludesEmpty` | src/app/search/page.tsx:41-43 | every string includes the empty string |
| `JobSearch.Matches` | src/app/search/page.tsx:41-43 | no contract of its own; the predicate passed to `filter`, stated by `MatchesIsMentions` |
| `JobSearch.MatchesIsMentions` | src/app/search/page.tsx:40-44 | the filter predicate holds exactly when the lowered term is a substring of the lowered title, company or location |
| `JobSearch.Keep` | src/app/search/page.tsx:40-44 | no contract of its own; the `allJobs.filter` call, stated by `KeepMembership`, `KeepIsSubsequence`, `KeepCount`, `KeepAll` and `KeepIdempotent` |
| `JobSearch.KeepMembership` | src/app/search/page.tsx:40-44 | a job is in the filtered list exactly when it is in the input and matches |
| `JobSearch.KeepIsSubsequence` | src/app/search/page.tsx:40 | the filtered list is a subsequence of the input, its multiset is contained in the input's and it is no longer |
| `JobSearch.SubsequenceSkip` | src/app/search/page.tsx:40 | a subsequence of a list's tail is a subsequence of the list |
| `JobSearch.SubsequenceTail` | src/app/search/page.tsx:40 | the tail of a subsequence is still a subsequence |
| `JobSearch.KeepCount` | src/app/search/page.tsx:40-44 | the filter keeps every occurrence of a matching job and none of a non-matching one |
| `JobSearch.KeepAll` | src/app/search/page.tsx:40-44 | when every job matches, the filter returns the input unchanged |
| `JobSearch.KeepIdempotent` | src/app/search/page.tsx:40-44 | filtering the filtered list again by the same term gives the same list |
| `JobSearch.FilterJobs` | src/app/search/page.tsx:35-44 | no contract of its own; the filter of the search page, stated by `EmptyTermShowsAll`, `ShortcutAgreesWithFilter`, `SoundAndComplete`, `OrderPreserved`, `CopiesKept`, `CaseInsensitive`, `Idempotent` and `OtherFieldsIgnored` |
| `JobSearch.EmptyTermShowsAll` | src/app/search/page.tsx:35-38 | the empty term shows exactly the full list, unchanged |
| `JobSearch.ShortcutAgreesWithFilter` | src/app/search/page.tsx:35-44 | the early return for the empty term gives the same list as filtering by the lowered term would |
| `JobSearch.SoundAndComplete` | src/app/search/page.tsx:39-44 | a job is shown exactly when it is in the list and the lowered term is a substring of its lowered title, company or location |
| `JobSearch.OrderPreserved` | src/app/search/page.tsx:40 | the shown list keeps the input's order, repeats no job more often than the input does and is no longer than the input |
| `JobSearch.CopiesKept` | src/app/search/page.tsx:35-44 | a job that mentions the lowered term is shown as many times as it occurs in the list; any other job is not shown |
| `JobSearch.CaseInsensitive` | src/app/search/page.tsx:39-43 | two terms with the same lowered form show the same list |
| `JobSearch.Idempotent` | src/app/search/page.tsx:35-44 | searching the shown list again with the same term shows the same list |
| `JobSearch.OtherFieldsIgnored` | src/app/search/page.tsx:41-43 | id, type, description and source never decide whether a job is shown; a job whose title, company and location miss a non-empty term is not shown in any list |
| `TranscribeRoute.EffectiveLanguage` | src/app/api/transcribe/route.ts:32 | the language is absent (the read throws) exactly when the field is absent; otherwise it is the first value, or `"en"` when that value is empty or missing, and never empty |
| `TranscribeRoute.ConvertedPath` | src/app/api/transcribe/route.ts:34 | the converted path extends the staged path by four characters (`.wav`) and is never the staged path |
| `TranscribeRoute.ConvertedPathInjective` | src/app/api/transcribe/route.ts:34 | different staged paths have different converted paths |
| `TranscribeRoute.ReadUpload` | src/app/api/transcribe/route.ts:31-33 | the audio path and language can be read exactly when a non-empty `audio` entry and a `language` field are present; the path is the first file's and the language is the effective one |
| `TranscribeRoute.StagedPaths` | src/app/api/transcribe/route.ts:17-25 | the paths staged by the form parser are exactly the file paths of the `audio` entry |
| `TranscribeRoute.Handle` | src/app/api/transcribe/route.ts:27-64 | every request answers either the fixed 500 failure or 200 with the recognizer's text |
| `TranscribeRoute.Cleanup` | src/app/api/transcribe/route.ts:53-58 | no contract of its own; the two deletions and the answer, stated by `SuccessEffects` and `FirstUnlinkFailureStopsCleanup` |
| `TranscribeRoute.Succeeds` | src/app/api/transcribe/route.ts:28-58 | no contract of its own; the condition under which every stage succeeds, tied to the 200 answer by `SuccessIff` |
| `TranscribeRoute.Response.Status` | src/app/api/transcribe/route.ts:58-62 | no contract of its own; 200 for `{text}` and 500 for `{error}`, stated by `FailureIsGeneric` |
| `TranscribeRoute.Route.constructor` | src/app/api/transcribe/route.ts:27 | a route starts from the given temporary paths and an empty call log |
| `TranscribeRoute.Route.UnlinkSync` | src/app/api/transcribe/route.ts:54-55 | a deletion succeeds exactly when the path exists and is not refused; it removes only that path, and only on success; the attempt is logged |
| `TranscribeRoute.Route.Post` | src/app/api/transcribe/route.ts:27-64 | the answer, the new disk and the calls appended to the log are those of `Handle` for the collaborators' outcomes and the old disk |
| `TranscribeRoute.FailureIsGeneric` | src/app/api/transcribe/route.ts:60-62 | every failure answers status 500 with body `{error: "Failed to process audio."}`, and no other status than 200 or 500 occurs |
| `TranscribeRoute.SuccessIff` | src/app/api/transcribe/route.ts:28-58 | the answer is 200 exactly when parsing, reading, transcoding, recognition and both deletions succeed |
| `TranscribeRoute.SuccessEffects` | src/app/api/transcribe/route.ts:34-58 | on success the answer is the recognizer's text; the calls are transcode, recognize with the effective language and `mansa_v1`, then delete staged and converted; neither file remains |
| `TranscribeRoute.MissingAudioMakesNoCalls` | src/app/api/transcribe/route.ts:31 | with no (or an empty) `audio` entry the answer is the 500 failure and no outbound call is made |
| `TranscribeRoute.MissingLanguageMakesNoCalls` | src/app/api/transcribe/route.ts:32 | with no `language` field the answer is the 500 failure, no outbound call is made and the staged files stay |
| `TranscribeRoute.StagesInOrder` | src/app/api/transcribe/route.ts:37-50 | the recognizer is called only as the second call, after a transcoding that reported `end`; after a transcoder `error` no further call is made |
| `TranscribeRoute.NoCleanupOnFailure` | src/app/api/transcribe/route.ts:53-55 | deletion is attempted only after the recognizer returned text; a transcoding or recognition failure leaves the staged file, and the converted file exactly when it was written or already there |
| `TranscribeRoute.FirstUnlinkFailureStopsCleanup` | src/app/api/transcribe/route.ts:54-55 | when deleting the staged file throws, the answer is 500, the converted file is never deleted and stays on disk |
| `TranscribeRoute.OnlyOwnFilesTouched` | src/app/api/transcribe/route.ts:30-55 | a request adds no path but its staged uploads and converted file, and removes no path but its staged audio file and converted file |

## Left out

- The page's React plumbing (`useState`, `useEffect`, rendering) is UI and is not modelled. The
  filter is a function of the job list and the term.
- The load of `/jobs.json` is network I/O. The job list is an input.
- The page's recording code (`getUserMedia`, `MediaRecorder`, `fetch` to the route) is browser
  I/O and async callbacks, and is not modelled.
- src/app/profile/page.tsx, components/Navbar.tsx and components/Providers.tsx are UI and
  session wiring, and are not part of this model.
- JobSearch.ToLower: lowers ASCII letters only, not the full Unicode `toLowerCase` mapping.
- The form parser, the transcoder process, the recognizer's network call, the read stream and
  `unlinkSync` are foreign code and external processes. Each is the outcome it reports. The
  module-level setup of the transcoder path and the recognizer client is left out.
- Only the `audio` and `language` entries of the parsed form are modelled. Other fields and
  files are ignored, as the handler ignores them. The form parser still writes the files of
  any other file entry to disk, and nothing deletes them. So `OnlyOwnFilesTouched` covers only
  the files of the `audio` entry.
- A parse failure is modelled as staging no file. What the parser writes before it fails is
  not visible to the handler.
- The server-side error log (`console.error`) is output only and is not modelled.
- Uniqueness of temporary names across concurrent requests, concurrency itself and timeouts
  are not modelled. Naming happens inside the form parser, and the handler has no timeout.
