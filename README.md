# Numberplate client: result store and page state, modelled in Dafny

The system is a thin camera-to-recognition client in two variants. A page
captures a still from the camera and posts it to a configurable recognition
service. A 2xx reply that names a numberplate becomes a `PlateResult`
appended to a list in the browser's local storage. A gallery page shows that
list, searched and sorted, and deletes one plate or all of them. A settings
page stores the service's URL, but only a text that parses as a URL. The
mobile variant keeps a list of `NumberplateEntry` in the device's
asynchronous storage and can append to it and update it.

The model covers:

- the two stores: `MobileStorage.StorageService` over the 'numberplates' key
  and `WebStorage.LocalStorage` over the 'plates' and 'apiEndpoint' keys.
  Each key is a field holding an `Option` of the decoded value; `None` means
  the key is absent.
- the recognition decision, `Recognition.Recognize`, which turns the stored
  endpoint and the abstract reply into a plate or a failure.
- the page handlers as methods of classes whose fields are the React state
  variables. These are `Gallery.GalleryPage`, `WebCapture.CapturePage`
  (numberplate-app), `AppCapture.CapturePage` (src/pages) and
  `Settings.SettingsPage`. The pages share one `LocalStorage` object, as the
  browser pages share local storage.

The gallery's filter-and-sort effect is `Gallery.ComputeView`. It filters a
copy of the plates. It then sorts that copy in place, in an array, with an
insertion sort (`SortPlates`). The page keeps the invariant
`GalleryPage.Valid()`: the shown list is a view of the current plates, search
term and sort order. "A view" means exactly the matching plates, each as
often as stored, in the chosen order.

Modelling conventions:

- JavaScript truthiness of a possibly absent string is `Records.Truthy`
  (absent or empty is falsy). The endpoint check, the `numberplate` check,
  the captured-image check and the `if (plateToDelete)` check all use it.
- `fetch` and the service are one `Recognition.Reply`: a transport error, or
  a received status, status text, `numberplate` and `confidence`.
- `confidence` is an opaque `real`; nothing computes on it.
- `Date.now()` is two inputs, the id text and the timestamp. Nothing makes
  them unique.
- JSON stringify/parse of the lists is the identity.
- Storage read and write failures of the mobile store are boolean inputs.
  Writes to the browser's local storage always succeed in the model (see
  "## Left out").
- The camera's answer is an input: a `CameraOutcome` (web), or a function
  from the requested constraints to an `Acquire` outcome (src/pages).
- URL validation is `SettingsPage.isValidUrl`, a fixed function the model
  knows nothing about.
- `toLowerCase` is ASCII lower-casing. `localeCompare` is plain
  lexicographic order on code points (`Text.LexLe`). A Dafny `char` is a
  Unicode scalar value. A character outside the Basic Multilingual Plane is
  therefore one element here but two UTF-16 code units in JavaScript. So
  string lengths differ for such characters, and so can the order: U+1F600
  sorts above U+FFFF here, while its first code unit, 0xD83D, sorts below
  U+E000 in JavaScript.

Behaviours the source has, that the model states and proves:

- The mobile `addNumberplate` loads before writing. A failed read loads the
  empty list, so the key is then overwritten with just the new entry
  (`AddNumberplate`'s second `ensures`).
- The gallery's confirm button sends the selection `'all'` to
  `clearAllPlates`, and every other selection to `deletePlate`. See
  `ConfirmDialog`. A plate whose id were the text "all" could not be deleted
  on its own, but ids are clock readings in decimal.
- `clearAllPlates` leaves the dialog as it was.

## Model

| member | source | states |
|---|---|---|
| `MobileStorage.FindIndex` | src/services/storage.service.ts:39 | returns the first position whose entry has the id, or None exactly when no entry has it |
| `MobileStorage.Updated` | src/services/storage.service.ts:37-42 | same length; the first entry with the updated entry's id is replaced by it; every other position is unchanged (so nothing changes when no id matches) |
| `MobileStorage.UpdatedIdempotent` | src/services/storage.service.ts:37-44 | applying the same update twice gives the same list as applying it once |
| `MobileStorage.StorageService.GetNumberplates` | src/services/storage.service.ts:9-17 | returns the stored list; returns the empty list when nothing is stored or the read fails |
| `MobileStorage.StorageService.SaveNumberplates` | src/services/storage.service.ts:19-29 | on success the key holds exactly the given list, so a following read returns it; a failed write is reported and leaves the key unchanged |
| `MobileStorage.StorageService.AddNumberplate` | src/services/storage.service.ts:31-35 | on success the key holds the loaded list with the entry appended at the end; a failed read loads the empty list first; a failed write leaves the key unchanged |
| `MobileStorage.StorageService.UpdateNumberplate` | src/services/storage.service.ts:37-44 | reports NotFound exactly when no loaded entry has the id, and then writes nothing; otherwise a successful write stores the updated list and a failed one leaves the key unchanged |
| `WebStorage.WithoutId` | numberplate-app/src/services/api.ts:71 | keeps exactly the entries whose id differs from the given one, never more entries than before |
| `WebStorage.WithoutIdConcat` | numberplate-app/src/services/api.ts:71 | the filter distributes over concatenation, so the kept entries stay in their relative order |
| `WebStorage.WithoutIdAbsent` | numberplate-app/src/services/api.ts:71 | with no entry carrying the id the list comes back unchanged |
| `WebStorage.WithoutIdIdempotent` | numberplate-app/src/services/api.ts:66-75 | deleting the same id twice equals deleting it once |
| `WebStorage.LocalStorage.GetPlates` | numberplate-app/src/services/api.ts:56-59 | returns the stored list, or the empty list when the key is absent (so after ClearAllPlates it returns the empty list) |
| `WebStorage.LocalStorage.SavePlate` | numberplate-app/src/services/api.ts:45-50 | the key afterwards holds the previous list (absent counting as empty) with exactly the new plate appended; the endpoint key is untouched |
| `WebStorage.LocalStorage.DeletePlate` | numberplate-app/src/services/api.ts:66-75 | returns false and writes nothing when the key is absent; otherwise stores the list without that id and returns true even if nothing matched |
| `WebStorage.LocalStorage.ClearAllPlates` | numberplate-app/src/services/api.ts:80-82 | the 'plates' key is absent afterwards; the endpoint key is untouched |
| `WebStorage.LocalStorage.SetPlates` | numberplate-app/src/pages/GalleryPage.tsx:112 | the 'plates' key holds exactly the given list |
| `WebStorage.LocalStorage.SetApiEndpoint` | src/pages/SettingsPage.tsx:32 | the 'apiEndpoint' key holds exactly the given text |
| `Recognition.FailureText` | numberplate-app/src/services/api.ts:11-31 | the messages of the thrown errors; apart from a transport failure, a message starts with "API error: " exactly when it reports a status |
| `Recognition.ApiErrorStatusReadBack` | numberplate-app/src/services/api.ts:24 | the digits that follow "API error: " in the message denote the response's status, whatever its status text |
| `Recognition.CaptureErrorText` | numberplate-app/src/pages/CapturePage.tsx:104-156 | a failure is shown after "Error processing image: " exactly when it was thrown (API or transport error), with the thrown message after it; "not configured" and "no numberplate" are shown as is |
| `Recognition.Recognize` | numberplate-app/src/services/api.ts:8-39 | a falsy endpoint fails as "not configured" whatever the reply; a transport error or non-2xx status fails with its message or status; a plate is recognised exactly for a 2xx reply with a truthy numberplate, carrying that numberplate, that confidence and the clock inputs; a 2xx reply without one is the "No numberplate" failure |
| `Text.LowerString` | numberplate-app/src/pages/GalleryPage.tsx:65 | same length, and each character is lowered on its own (ASCII letters only) |
| `Text.Decimal` | numberplate-app/src/services/api.ts:24 | the text of a status: digits only, denoting the number, with no leading zero |
| `Text.ContainsIff` | numberplate-app/src/pages/GalleryPage.tsx:65 | the substring scan succeeds exactly when the term occurs at some position of the text |
| `Text.LexLeTotal` | numberplate-app/src/pages/GalleryPage.tsx:78 | any two plate texts are comparable in the alphabetical order |
| `Text.LexLeTransitive` | numberplate-app/src/pages/GalleryPage.tsx:78 | the alphabetical order is transitive |
| `Gallery.Filtered` | numberplate-app/src/pages/GalleryPage.tsx:63-67 | keeps exactly the plates whose lower-cased numberplate contains the lower-cased term |
| `Gallery.FilteredConcat` | numberplate-app/src/pages/GalleryPage.tsx:64-66 | the search filter distributes over concatenation, so it keeps the plates' relative order |
| `Gallery.FilteredEmptyTerm` | numberplate-app/src/pages/GalleryPage.tsx:63 | an empty term keeps every plate, so skipping the filter for it changes nothing |
| `Gallery.PrecedesTotal` | numberplate-app/src/pages/GalleryPage.tsx:70-80 | each of the three comparators orders any two plates one way or the other |
| `Gallery.PrecedesTransitive` | numberplate-app/src/pages/GalleryPage.tsx:70-80 | each of the three comparators is transitive |
| `Gallery.SortPlates` | numberplate-app/src/pages/GalleryPage.tsx:70-80 | the array afterwards is sorted by the order (non-increasing timestamps for newest, non-decreasing for oldest, alphabetical for alphabetical) and is a permutation of the array before |
| `Gallery.InsertLast` | numberplate-app/src/pages/GalleryPage.tsx:70-80 | extends the sorted prefix by one element, moving nothing past it and keeping the array a permutation |
| `Gallery.ComputeView` | numberplate-app/src/pages/GalleryPage.tsx:59-83 | the view is a permutation of the filtered plates, sorted by the order, containing exactly the matching plates |
| `Gallery.AlphabeticalExample` | numberplate-app/src/pages/GalleryPage.tsx:77-78 | plates "ZZ99" then "AA11" are shown as "AA11" then "ZZ99" under alphabetical order |
| `Gallery.GalleryPage.constructor` | numberplate-app/src/pages/GalleryPage.tsx:38-44 | the initial state: no plates, empty view and term, dialog closed, no selection, order newest |
| `Gallery.GalleryPage.Refresh` | numberplate-app/src/pages/GalleryPage.tsx:59-83 | the shown list becomes a view of the current plates, term and order; the plates are not touched |
| `Gallery.GalleryPage.Load` | numberplate-app/src/pages/GalleryPage.tsx:47-56 | takes the stored list when the key is present; noPlatesFound holds exactly when the key is absent or the list empty |
| `Gallery.GalleryPage.HandleSearchChange` | numberplate-app/src/pages/GalleryPage.tsx:86-88 | sets the term and reruns the view |
| `Gallery.GalleryPage.HandleSortChange` | numberplate-app/src/pages/GalleryPage.tsx:91-93 | sets the order and reruns the view |
| `Gallery.GalleryPage.OpenDeleteDialog` | numberplate-app/src/pages/GalleryPage.tsx:96-99 | selects the id and opens the dialog |
| `Gallery.GalleryPage.CloseDeleteDialog` | numberplate-app/src/pages/GalleryPage.tsx:102-105 | clears the selection and closes the dialog |
| `Gallery.GalleryPage.RequestClearAll` | numberplate-app/src/pages/GalleryPage.tsx:223-226 | selects the 'all' sentinel and opens the dialog |
| `Gallery.GalleryPage.DeletePlate` | numberplate-app/src/pages/GalleryPage.tsx:108-116 | with a truthy selection: removes exactly the plates with that id, stores that same list, sets noPlatesFound iff it is empty, clears the selection and closes the dialog; otherwise changes nothing |
| `Gallery.GalleryPage.ClearAllPlates` | numberplate-app/src/pages/GalleryPage.tsx:119-123 | empties the plates and the view, removes the key, sets noPlatesFound; the dialog is not touched |
| `Gallery.GalleryPage.ConfirmDialog` | numberplate-app/src/pages/GalleryPage.tsx:252-254 | the 'all' selection clears plates, view and key and leaves the dialog; any other truthy selection deletes that id, stores the list, flags it empty exactly when it is, and closes the dialog; a falsy selection changes nothing |
| `WebCapture.CameraErrorText` | numberplate-app/src/pages/CapturePage.tsx:37-52 | the camera error is "Error accessing camera: " followed by the rejection's message, or the unsupported-browser text when `getUserMedia` is missing |
| `WebCapture.CapturePage.constructor` | numberplate-app/src/pages/CapturePage.tsx:24-31 | the initial state of the page's state variables |
| `WebCapture.CapturePage.SetVideoMounted` | numberplate-app/src/pages/CapturePage.tsx:24 | the video ref is (un)set; an unmounted element holds no stream |
| `WebCapture.CapturePage.InitCamera` | numberplate-app/src/pages/CapturePage.tsx:34-54 | clears the error, then sets the camera error text, or, for a granted stream and only with the video element mounted, attaches it and activates the camera |
| `WebCapture.CapturePage.StopCamera` | numberplate-app/src/pages/CapturePage.tsx:57-65 | detaches the stream and deactivates the camera only when a stream was attached; otherwise changes nothing |
| `WebCapture.CapturePage.CaptureImage` | numberplate-app/src/pages/CapturePage.tsx:68-90 | keeps the frame and stops the camera only when both refs and a 2d context exist; otherwise changes nothing |
| `WebCapture.CapturePage.ResetCapture` | numberplate-app/src/pages/CapturePage.tsx:93-97 | clears the still and the result, then behaves as InitCamera |
| `WebCapture.CapturePage.ProcessImage` | numberplate-app/src/pages/CapturePage.tsx:100-160 | no still: nothing changes; no endpoint: only the "not configured" error is set, loading and storage untouched; otherwise loading ends false and either exactly one plate with the reply's numberplate and confidence is appended, shown and announced, or the error is set and storage is untouched |
| `AppCapture.ConstraintsFor` | src/pages/CapturePage.tsx:57-59 | the rear camera is requested exactly when the call is not the retry |
| `AppCapture.RetryAfterAcquireErrorIff` | src/pages/CapturePage.tsx:172-173 | an acquisition error calls for the retry exactly on the first attempt when "facingMode" or "constraint" occurs at some position of its message |
| `AppCapture.FallsBack` | src/pages/CapturePage.tsx:103-181 | an attempt falls back only when it is not itself the retry, never for a stream without a mounted element, and never when playback started or is pending |
| `AppCapture.ErrorAfter` | src/pages/CapturePage.tsx:103-181 | no error exactly when a stream was obtained and did not fail to play in a mounted element; an acquisition error is reported after "Error accessing camera: ", a playback error after "Error starting video: ", each followed by its message |
| `AppCapture.CapturePage.constructor` | src/pages/CapturePage.tsx:24-33 | the initial state of the page's state variables |
| `AppCapture.CapturePage.SetVideoMounted` | src/pages/CapturePage.tsx:24 | the video ref is (un)set; an unmounted element holds no stream |
| `AppCapture.CapturePage.StopCamera` | src/pages/CapturePage.tsx:186-198 | always leaves the stream detached and the camera inactive |
| `AppCapture.CapturePage.Attempt` | src/pages/CapturePage.tsx:38-182 | one pass of initCamera: falls back exactly on the first attempt for a constraint-like acquisition error or failed playback; otherwise leaves the error, loading and active flags of that outcome |
| `AppCapture.CapturePage.InitCamera` | src/pages/CapturePage.tsx:36-183 | requests the rear camera first unless retrying, falls back at most once and then to plain video, exactly when the first attempt calls for it, and leaves the state of the last attempt |
| `AppCapture.CapturePage.CaptureImage` | src/pages/CapturePage.tsx:201-223 | keeps the frame and stops the camera, which is then inactive, only when both refs and a 2d context exist; otherwise changes nothing |
| `AppCapture.CapturePage.ResetCapture` | src/pages/CapturePage.tsx:226-230 | clears the still and the result, then ends as `initCamera(false)` does: the rear camera first, a fallback to plain video exactly when that attempt calls for it, and the error, loading, active and attached flags of the last attempt |
| `AppCapture.CapturePage.ProcessImage` | src/pages/CapturePage.tsx:233-293 | the same outcomes as on the web page: nothing without a still, only the error without an endpoint, otherwise loading ends false and exactly one plate is appended or an error is set with storage untouched |
| `Settings.SettingsPage.constructor` | src/pages/SettingsPage.tsx:13-24 | the field starts as the stored endpoint when one is stored and non-empty, '' otherwise; the snackbar is closed |
| `Settings.SettingsPage.EditEndpoint` | src/pages/SettingsPage.tsx:65 | the field holds the typed text |
| `Settings.SettingsPage.HandleSaveSettings` | src/pages/SettingsPage.tsx:26-44 | a valid URL is stored verbatim with severity success; an invalid one leaves the stored endpoint unchanged with severity error and "Please enter a valid URL"; the snackbar opens either way |
| `Settings.SettingsPage.HandleCloseSnackbar` | src/pages/SettingsPage.tsx:46-48 | closes the snackbar; message and severity are untouched |

## Left out

- Camera acquisition machinery (src/pages/CapturePage.tsx:36-183) beyond the constraint and retry decision: the 10 s timeout, the 100 ms wait, the 200 ms polling for a late video element, `oncanplay`, and the stale `cameraLoading` closures. An attempt whose playback has not settled, or whose video element is missing, leaves `cameraLoading` true and nothing else.
- Error messages of rejected `getUserMedia`/`play()` calls are taken as given; every rejection is treated as an `Error` instance.
- WebCapture.CapturePage.InitCamera: whether the video element is mounted is a field set by `SetVideoMounted`. The page's rendering rule is not modelled: the element is rendered only while `cameraActive` is true and no still is held. Under that rule the first `initCamera` could not attach a stream.
- Network, `FormData`/Blob conversion, `response.json()` and the mobile `apiService` (src/services/api.service.ts, src/config/api.ts): abstracted as `Recognition.Reply`. A `numberplate` field that is truthy but not a string is not modelled.
- Canvas drawing, `toDataURL` and Expo capture: the frame is an opaque input string.
- URL validation: `isValidUrl` is a function the page is given, with no body in the model.
- Unicode and locale: `toLowerCase` is ASCII only, and `localeCompare` is code-point order rather than the locale's collation or UTF-16 code-unit order.
- Gallery.SortPlates: stability of `Array.prototype.sort` is not stated. Plates that compare equal may appear in any order in the model.
- Float display of confidence percentages and dates: rendering only.
- React scheduling: a state setter takes effect at once, and the filter-and-sort effect runs at the end of each handler that changes its inputs. `processImage`'s in-flight state (`loading` true) is internal to the method; only its settled state is stated.
- The snackbar close handlers of both capture pages and the `retryWithoutFacingMode` flag's use in the page's buttons: rendering glue.
- Mobile screens (src/screens/CameraScreen.tsx, src/screens/GalleryScreen.tsx), layouts, routing, build and icon scripts: not part of this model.
- Id generation: ids and timestamps are inputs; no uniqueness is claimed.
- WebStorage.LocalStorage.SavePlate: `localStorage.setItem` is taken never to throw (quota, private mode), and so are the other writers `SetPlates` and `SetApiEndpoint`.
- Settings.SettingsPage.HandleSaveSettings: a failing `setItem` is not modelled. In the source its exception reaches the same catch as an invalid URL, so a valid URL would be reported as "Please enter a valid URL".
- WebCapture.CapturePage.ProcessImage: a failing `setItem` is not modelled. In the source `plateResult` is set before the write, so the page would end with a shown result, the "Error processing image: " error and nothing appended.
- AppCapture.CapturePage.ProcessImage: a failing `setItem` is not modelled, with the same consequence as on the web page.
- Gallery.GalleryPage.DeletePlate: a failing `setItem` is not modelled. In the source it would leave the plates already filtered and the dialog open.
