# Patient-records portal front-end: a verified model of its state machines

This project models the client-side logic of a role-gated patient
document portal written in React. There is a login gate, an administrator
dashboard and a user dashboard. The administrator dashboard has two parts:

- document capture: an image goes to an AI text-extraction service, and the
  extracted text is then saved to a document store;
- patient search.

Each React component that updates state becomes a Dafny `class`. The class
has one field per `useState` variable and one method per handler. The calls
the portal makes to the network, the AI SDK or the camera become
parameters giving how each call ended. The pure parts are functions with
lemmas about them:

- the CSV escaping;
- the download name;
- `trim`;
- the error classification;
- the role-to-page choice.

Modules: one per component or service, plus `Common` for the shared types
and `CsvExport` for the pure CSV part of `components/AdminDashboard.tsx`:

- `Common`: optional values, call results, the two roles, image files.
- `CsvExport`: the CSV body, the quote escaping and its inverse, and the
  download file name.
- `AdminDashboard`: the capture session (`Dashboard`). `handleImageReady`
  is `async`, so it is split at its `await` points into the events
  `Acquire`, `ExtractOk`/`ExtractErr` and `SaveOk`/`SaveErr`. The field
  `pending` records which `await` the handler is waiting at. Also modelled:
  `handleReset`, the Menu button, the save banner and the CSV download.
- `PatientSearch`: `handleSearch`, split into `Submit` (up to the `await`)
  and `Complete`; the disabled submit button; what each status renders; and
  ECMAScript `String.prototype.trim`.
- `LoginModal`: role choice, the fixed-password check, going back, and the
  reset when the modal closes.
- `ImageUploader`: the MIME check, the drag flag, drop and pick, and the
  camera stream. `startCamera` is split at its `await` of `getUserMedia`
  into `RequestCamera` and `ResolveCamera`. Stopping the camera stops every
  track, in a loop with an invariant. Also the capture file's name.
- `GeminiService`: the missing-key checks, the lazily created single
  client, and the mapping from what the SDK throws to user messages.
- `App`: the logged-in role and the page it selects.

Object URLs are abstract numbered handles. `liveUrls` is the set of image
URLs created for the capture view and not yet revoked; the URL the CSV
download creates is not among them. Running camera tracks are a set that
`ResolveCamera` adds to and `StopCamera` removes from. `alert` calls,
`onImageReady` calls, `onLogin` calls, search queries and save requests are
each kept as a sequence, so contracts can say which calls were made.

Notes on the code's behaviour:

- Empty extracted text, or text that is absent, is not a failure in the
  code. It is stored as the extracted text, no error is set, and the save
  status stays `idle`. No save is issued.
- The save status has four values (`idle | saving | success | error`). There
  is no separate "extracting" status. While extraction runs, the status is
  `idle` and the loading flag is set. The loading flag stays set while the
  save runs.
- The save error is added after an earlier error on a new line. In a
  sequential run, though, the error is always empty when a save fails:
  `Dashboard.Valid` includes `pending != NoCall ==> error.None?`. So the
  new-line branch is reachable only when capture sessions overlap.
- A reset does not cancel a call that is still running. If that call ends
  after the reset, it still writes the text and status fields. The
  invariants in `Dashboard.Valid` are stated so that they hold in that case
  too.

## Model

| member | source | states |
|---|---|---|
| `Common.RoleName` | components/LoginModal.tsx:54-61 | the administrator role's user name is exactly `admin` and the user role's is exactly `user` |
| `Common.RoleNameInjective` | components/LoginModal.tsx:41 | two roles have the same name only if they are the same role, so the user-name comparison identifies the role |
| `CsvExport.EscapeQuotes` | components/AdminDashboard.tsx:89 | the escaped text is exactly as long as the original plus the number of `"` in it, and it is a well-formed RFC 4180 escaped body (quotes only in adjacent pairs) |
| `CsvExport.CollapseEscape` | components/AdminDashboard.tsx:89 | collapsing each `""` back to `"` in the escaped text gives back the original text, for every text |
| `CsvExport.EscapeCollapse` | components/AdminDashboard.tsx:89 | every well-formed escaped body is the escape of its collapse, so escaping is a bijection onto well-formed bodies |
| `CsvExport.CsvContent` | components/AdminDashboard.tsx:90 | the content is the `"extracted_text"` header, one LF, then the data field in quotes; its length is the header's length plus 3 plus the text's length plus its number of quotes |
| `CsvExport.CsvRoundTrip` | components/AdminDashboard.tsx:89-90 | reading the exported file as one header line and one quoted field gives back exactly the extracted text |
| `CsvExport.ExtensionStart` | components/AdminDashboard.tsx:97 | the position it returns starts a `.` followed by one or more characters, none of them `.` or `/`, up to the end of the name; when it returns none, no position does |
| `CsvExport.ExtensionUnique` | components/AdminDashboard.tsx:97 | at most one position of a name starts such an extension, so the regular expression has one match at most |
| `CsvExport.StripExtension` | components/AdminDashboard.tsx:97 | when the name has such an extension, the result is the prefix in front of its dot; otherwise the name is unchanged |
| `CsvExport.DownloadName` | components/AdminDashboard.tsx:97-98 | the file name is the stripped source name plus `.csv`; it is `extracted-data.csv` when there is no file or when the stripped name is empty |
| `CsvExport.Export` | components/AdminDashboard.tsx:87-98 | there is no download exactly when the text is absent or empty; otherwise the content reads back as the text and the name is `DownloadName` of the source file |
| `CsvExport.StripExamples` | components/AdminDashboard.tsx:97 | `a.tar.gz` becomes `a.tar`; `noext` and `dir.v2/file` are unchanged; `.jpg` falls back to `extracted-data.csv`; `scan.png` gives `scan.csv` |
| `AdminDashboard.ExtractionErrorMessage` | components/AdminDashboard.tsx:78 | the error shown after a failed extraction is never empty: it is the thrown message when that message is non-empty, and `An unknown error occurred.` when it is empty |
| `AdminDashboard.AppendSaveError` | components/AdminDashboard.tsx:73 | when there is an earlier error, the new error starts with it, then a new line, then `Could not save document: ` and the message; without one it is just that save message |
| `AdminDashboard.SaveErrorsAccumulate` | components/AdminDashboard.tsx:73 | two save failures in a row keep the first error text, and any error before it, as a prefix |
| `AdminDashboard.BannerText` | components/AdminDashboard.tsx:159-190 | there is no banner text exactly when the status is `idle` |
| `AdminDashboard.Dashboard.constructor` | components/AdminDashboard.tsx:21-29 | the dashboard starts on the menu, with every capture field cleared, no URL allocated, no call pending and no call issued |
| `AdminDashboard.Dashboard.Open` | components/AdminDashboard.tsx:130-155 | the menu buttons, which exist only in the menu view, switch to the capture or search view |
| `AdminDashboard.Dashboard.Acquire` | components/AdminDashboard.tsx:44-51 | acquiring a file records it and a newly allocated URL, clears the error, sets the status to `idle` and sets loading; it issues one extraction for that file, leaves the text as it was and issues no save |
| `AdminDashboard.Dashboard.ExtractOk` | components/AdminDashboard.tsx:62-66 | the returned text is stored; a save of exactly that text under the file's name is issued, and the status becomes `saving`, exactly when the text is non-empty; otherwise the status stays `idle`, loading ends and no save is issued |
| `AdminDashboard.Dashboard.ExtractErr` | components/AdminDashboard.tsx:77-84 | the error becomes the message, or `An unknown error occurred.` when it is empty; the text becomes `Error: ` plus that message; the status is `idle`; loading ends; no save is issued |
| `AdminDashboard.Dashboard.SaveOk` | components/AdminDashboard.tsx:69 | the status becomes `success`, loading ends, and the text and error are unchanged |
| `AdminDashboard.Dashboard.SaveErr` | components/AdminDashboard.tsx:70-74 | the status becomes `error`, loading ends, the extracted text is kept, and the error becomes `AppendSaveError` of the earlier error |
| `AdminDashboard.Dashboard.Reset` | components/AdminDashboard.tsx:104-112 | the six capture fields return to their initial values; the URL is revoked only if there is one; no other URL changes |
| `AdminDashboard.Dashboard.BackToMenu` | components/AdminDashboard.tsx:207-211 | the Menu button, shown outside the menu view, always shows the menu; leaving the capture view performs the full reset, which revokes the image URL if there is one and no other URL; leaving the search view changes no capture field and no URL |
| `AdminDashboard.Dashboard.SaveBanner` | components/AdminDashboard.tsx:159-160 | a banner is shown exactly when the status is not `idle`, the capture view is open and there is a file, and then the extracted text is never empty |
| `AdminDashboard.Dashboard.DownloadCsv` | components/AdminDashboard.tsx:87-102 | the download does nothing exactly when the text is absent or empty; otherwise the file reads back as the text, and it is named `DownloadName` of the image file's name, or `extracted-data.csv` without a file |
| `AdminDashboard.CaptureSession` | components/AdminDashboard.tsx:44-85 | in one session, every way it can end leaves loading false. A save is issued (once) exactly when the text is non-empty. The status sequence is `idle, idle`, or `idle, saving, success`, or `idle, saving, error`. A failed extraction shows its message. A failed save shows `Could not save document: ` plus the message |
| `PatientSearch.TrimStart` | components/PatientSearch.tsx:20 | the result is a suffix of the input, everything removed is white space, and the result does not start with white space |
| `PatientSearch.TrimEnd` | components/PatientSearch.tsx:20 | the result is a prefix of the input, everything removed is white space, and the result does not end with white space |
| `PatientSearch.Trim` | components/PatientSearch.tsx:20 | the trimmed term is a slice of the input with only white space outside it; it is empty exactly when every character is white space, and otherwise it begins and ends with a non-space character, so it is the slice from the first to the last non-space character |
| `PatientSearch.TrimIdempotent` | components/PatientSearch.tsx:30 | trimming the sent term again leaves it unchanged |
| `PatientSearch.Search.constructor` | components/PatientSearch.tsx:13-16 | the view starts with an empty term, no results, status `idle` and no error |
| `PatientSearch.Search.SetSearchTerm` | components/PatientSearch.tsx:102 | typing replaces the term |
| `PatientSearch.Search.SubmitDisabled` | components/PatientSearch.tsx:107 | submitting is disabled exactly while a search call is in flight, which is while the status is `loading` |
| `PatientSearch.Search.Submit` | components/PatientSearch.tsx:18-30 | a blank term gives status `idle` and no results, with no call made; otherwise the status is `loading`, the error is cleared, and the trimmed term is the one query sent |
| `PatientSearch.Search.Complete` | components/PatientSearch.tsx:31-42 | non-empty results give `success` with the results stored in returned order; zero results give `not_found` with no results, never `error`; a throw gives `error`, no results, and the message or `An unexpected error occurred.` |
| `PatientSearch.Search.Rendered` | components/PatientSearch.tsx:45-86 | profiles are rendered exactly in status `success`, and they are the stored results in order; an error display always has a message |
| `PatientSearch.SearchOnce` | components/PatientSearch.tsx:18-43 | a blank term sends nothing and leaves `idle`; otherwise exactly the trimmed term is sent, and afterwards the results are non-empty exactly when the status is `success`; a returned sequence is stored as is and never gives `error`; a throw gives `error` with no results |
| `LoginModal.Modal.constructor` | components/LoginModal.tsx:16-19 | no role is selected, and the user name, password and error are empty |
| `LoginModal.Modal.Shown` | components/LoginModal.tsx:135-148 | nothing is rendered while the modal is closed; when open, the login form is shown exactly when a role is selected, and for that role |
| `LoginModal.Modal.SelectRole` | components/LoginModal.tsx:54-61 | choosing a role selects it, sets the user name to the role's name, and clears the password and the error |
| `LoginModal.Modal.SetPassword` | components/LoginModal.tsx:109 | typing replaces the password |
| `LoginModal.Modal.Back` | components/LoginModal.tsx:73 | going back clears only the selected role |
| `LoginModal.Modal.Submit` | components/LoginModal.tsx:34-110 | the password input is `required` (line 110), so an empty password blocks the submission and changes nothing. Otherwise, login succeeds exactly when the user name equals the selected role and the password equals `12345`. Because the user name is set only by the role choice, this is exactly "a role is selected and the password is `12345`". On success `onLogin` gets the selected role and the error stays cleared; on failure the error is `Invalid username or password.` and `onLogin` is not called |
| `LoginModal.Modal.Open` | components/LoginModal.tsx:135 | the parent opening the modal makes it render |
| `LoginModal.Modal.Close` | components/LoginModal.tsx:22-32 | closing resets the role, the password and the error but keeps the user name |
| `LoginModal.LoginAttempt` | components/LoginModal.tsx:34-110 | after choosing any role, signing in succeeds, and passes that role to `onLogin`, exactly when the password is `12345`; with any other non-empty password the error is set and nothing is passed; an empty password is never submitted, so no error appears |
| `ImageUploader.Digits` | components/ChatInterface.tsx:86 | a timestamp renders as one or more decimal digits, with no leading zero |
| `ImageUploader.DigitsRoundTrip` | components/ChatInterface.tsx:86 | reading the digits back gives the timestamp |
| `ImageUploader.DigitsInjective` | components/ChatInterface.tsx:86 | different timestamps render differently |
| `ImageUploader.CaptureFile` | components/ChatInterface.tsx:86 | the capture is named `capture-<timestamp>.jpg` and has type `image/jpeg`, which passes the image check |
| `ImageUploader.CaptureNamesDistinct` | components/ChatInterface.tsx:86 | captures taken at different times have different names |
| `ImageUploader.Uploader.constructor` | components/ChatInterface.tsx:15-19 | the uploader is mounted, with no drag highlight, no camera view, no stream, no video source, no camera request, no running track, nothing forwarded and no alert |
| `ImageUploader.Uploader.HandleFile` | components/ChatInterface.tsx:47-53 | a file is forwarded exactly when its type starts with `image/`; otherwise the invalid-file alert is raised and nothing is forwarded |
| `ImageUploader.Uploader.HandleDrag` | components/ChatInterface.tsx:21-29 | `dragenter` and `dragover` set the drag flag, `dragleave` clears it, and any other event type leaves it unchanged |
| `ImageUploader.Uploader.HandleDrop` | components/ChatInterface.tsx:31-38 | a drop clears the drag flag and handles only the first file, and only if there is one |
| `ImageUploader.Uploader.HandleChange` | components/ChatInterface.tsx:40-45 | picking files handles only the first one, and only if there is one |
| `ImageUploader.Uploader.RequestCamera` | components/ChatInterface.tsx:55-57 | the "Take a Photo" button, shown only outside the camera view, issues one `getUserMedia` request |
| `ImageUploader.Uploader.ResolveCamera` | components/ChatInterface.tsx:57-66 | a granted stream is held, its tracks run, and the camera view is shown if the uploader is still mounted; the stream becomes the video's source only if the video was already mounted, that is, if the camera view was already shown; a refusal raises the camera alert and changes nothing else |
| `ImageUploader.Uploader.AttachOnMount` | components/ChatInterface.tsx:106-108 | the intended behaviour: once the camera view has mounted the video, the held stream is its source |
| `ImageUploader.Uploader.StopCamera` | components/ChatInterface.tsx:69-75 | every track of the held stream is stopped; the stream is dropped; the view and its video are hidden; with no stream, only the view flag is cleared |
| `ImageUploader.Uploader.TakePicture` | components/ChatInterface.tsx:77-93 | in the camera view, a capture is forwarded, and the camera then stopped, exactly when the video has a source and has delivered its frame size; otherwise the canvas has no pixels, the blob is null and nothing changes |
| `ImageUploader.Uploader.Unmount` | components/ChatInterface.tsx:95-99 | unmounting always stops the camera and every track of the stream it holds; an unanswered camera request stays unanswered |
| `ImageUploader.CameraSessionAsWritten` | components/ChatInterface.tsx:55-93 | as written, opening the camera, granting it, pressing capture and unmounting never gives the video a source and forwards nothing, however the video behaves |
| `ImageUploader.CameraSession` | components/ChatInterface.tsx:55-99 | with the stream attached once the video mounts, opening the camera, optionally capturing, then unmounting leaves no track running and no camera view; the only file forwarded is the JPEG capture |
| `ImageUploader.UnmountDuringPrompt` | components/ChatInterface.tsx:55-99 | when the uploader unmounts while the permission prompt is open and the camera is then granted, the stream stays held by the unmounted uploader and all its tracks keep running, because the cleanup has already run |
| `ImageUploader.DropOnce` | components/ChatInterface.tsx:31-53 | a drop forwards at most one file: the first, exactly when it is an image; otherwise one alert is raised unless nothing was dropped |
| `GeminiService.ContainsSpec` | services/geminiService.ts:54 | `includes` holds exactly when the phrase occurs at some position of the message |
| `GeminiService.ClassifyError` | services/geminiService.ts:52-59 | an `Error` whose message contains `API key not valid` maps to the invalid-key message; any other `Error` maps to `Failed to get response from AI: ` plus its message; any other thrown value maps to the unknown-error message |
| `GeminiService.ClassificationDistinguishes` | services/geminiService.ts:52-59 | the mapped message is never empty; it starts with the failure prefix exactly for the wrapped-`Error` case, and then the SDK's message can be read back after the prefix |
| `GeminiService.Service.constructor` | services/geminiService.ts:8-9 | the key is read once; there is no client yet and no SDK call has been made |
| `GeminiService.Service.GetAiInstance` | services/geminiService.ts:13-21 | without a key it throws and creates nothing; with a key it creates the client on first use and returns the same client afterwards, so at most one client is ever created |
| `GeminiService.Service.ExtractTextFromImage` | services/geminiService.ts:30-61 | without a key it fails with `API Key is not configured.` before obtaining a client or calling the SDK; with a key the response text is returned unchanged (possibly absent), or the throw is mapped by `ClassifyError` |
| `GeminiService.ExtractTwice` | services/geminiService.ts:13-61 | two extractions with a key make two SDK calls and create one client; without a key neither reaches the SDK and no client exists |
| `App.PageFor` | App.tsx:22-34 | no role shows the login page, `admin` the admin dashboard and `user` the user dashboard, each exactly for that role |
| `App.Shell.constructor` | App.tsx:12 | initially no role is logged in and the login page is shown |
| `App.Shell.Shown` | App.tsx:22-32 | the shell renders the login page exactly when no role is logged in, the admin dashboard exactly for `admin` and the user dashboard exactly for `user` |
| `App.Shell.HandleLogin` | App.tsx:14-16 | logging in with a role makes it the logged-in role |
| `App.Shell.HandleLogout` | App.tsx:18-20 | logging out from any role returns to no role and the login page |
| `App.LoginThenLogout` | App.tsx:12-32 | between login and logout the role's own dashboard is shown; logging out then restores the initial page |

## Left out

- Rendering, styling and static pages are not modelled: the JSX markup, `LoginPage`, `UserDashboard`, the results panel and `PatientProfile` with its tabs. The model keeps only the choices that depend on state: which page, the modal screen, the save banner and the search display.
- The network calls in `services/apiService.ts` are not modelled: `fetch`, JSON parsing and the URL encoding of the query. A search or save call appears only as how it ended: the records returned, or the message thrown.
- The Gemini SDK request is not modelled: the prompt, the model name and `generateContent`. Only the outcome of the call is a parameter.
- Browser APIs are not modelled: the `FileReader` base64 conversion, `Blob`, the anchor click, the canvas drawing and `getUserMedia`. A `FileReader` failure arrives as `ExtractErr`. Object URLs are numbered handles.
- The `link.href` check in `handleDownloadCsv` is left out. A newly created anchor has no `href`, so there is never a URL to revoke there.
- The clock is not modelled: `Date.now()` is the `timestamp` parameter. `Digits` renders it as a non-negative integer.
- `console.error` logging is left out.
- ImageUploader.Uploader.TakePicture: assumes the canvas always supplies a 2D context. The case where `getContext('2d')` returns null is not modelled.
- ImageUploader.Uploader.TakePicture: the `toBlob` callback is taken to run before any other event. An unmount or camera close between the click and the callback is not modelled.
- ImageUploader.Uploader.RequestCamera: the `disabled={isLoading}` of the camera button and of the file input is not modelled, since `isLoading` is a property of the parent dashboard. The model lets the uploader's handlers run while the dashboard is loading. Loading is set only by acquiring a file, which replaces the uploader by the results view.
- The object URL `handleDownloadCsv` creates (line 96) is never revoked. The model does not allocate a handle for it, so `liveUrls` does not record that leak.
- LoginModal.Modal.Close: the 300 ms delay before the reset is not modelled. Closing is a single reset, so reopening within 300 ms (which cancels the reset in the source) is not modelled.
- AdminDashboard.Dashboard.Acquire: requires that no call of an earlier session is still pending. Capture sessions are sequential, because overlapping `handleImageReady` runs and React's batching of state updates are concurrency.
- PatientSearch.Search.Submit: requires that submitting is not disabled. While a search is loading, the disabled submit button blocks submission, including implicit submission by pressing Enter.
- AdminDashboard.Dashboard.SaveErr: the thrown save error's message is taken as a string. The source would render a thrown value that has no `message` as `undefined`.
- PatientSearch.Patient: a patient record is kept only as its two identifiers. The view displays the record and does not inspect its other fields.
- The fixed password is not an authentication scheme. It is modelled as written, and no security property is claimed.

## Findings

| source | as written | input that shows it | evidently intended | confidence | as-written member | corrected member |
|---|---|---|---|---|---|---|
| components/ChatInterface.tsx:59-61 | the granted stream is made the video's source only if the `<video>` element exists at that moment, but that element is rendered only in the camera view (lines 106-108), which `startCamera` opens only afterwards; the video stays without a source, so `takePicture` draws a canvas of zero size and `toBlob` gives null | press "Take a Photo" once, grant the camera, press the capture button | the stream is shown in the video once the camera view mounts it, and the capture is forwarded as `capture-<time>.jpg` | not executed; follows from the render condition and the canvas rules | `ImageUploader.CameraSessionAsWritten` | `ImageUploader.CameraSession` |
