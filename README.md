# Droplr front end: location acquisition and drop-zone bookkeeping

Droplr is a browser application for sharing files with people nearby. This project
models, in Dafny, the three pieces of its client logic that make decisions:

- **GPS sampler** (`getGPSLocation`): subscribes to the host's position stream, keeps
  readings whose accuracy is at most 50 m, settles on the third accepted reading with
  the mean latitude, longitude and accuracy, and at a 15-second deadline settles with
  the mean of what it has or fails with "GPS timeout". A stream error fails it. Cleanup
  of the watch and the timer is part of the model (module `GpsSampler`).
- **Location resolver** (`getLocation`, `getNetworkLocation`, accuracy bands, manual
  override, `handleProceed`): GPS first, the IP lookup only if GPS fails (fixed
  accuracy 1000 m), an error message if both fail (module `LocationResolver`). The
  averaging lives in module `Geo`.
- **Drop-zone file tracker** (`Zone`): per-file remaining lifetime
  `max(0, 1200000 - (now - createdAt))`, the one-second tick, the `m:ss` countdown,
  the search radius, `getFileIcon`, and the fetch, upload and download handlers as state
  transitions of a `Zone` object (modules `Countdown`, `FileIcons`, `DropZone`).

The two `App.jsx` files of the repository are two snapshots of the same component. One
model serves both: `droplr-frontend/src/App.jsx` lines 14-23, 25-60, 62-141, 143-158,
168-180 and 189-194 are the same code as `src/App.jsx` lines 14-21, 23-55, 57-118,
120-134, 144-155 and 164-169. The snapshots differ in two ways. The colour classes use
shade 400 in the older one and 500 in the newer one (`Palette`). Only `src/App.jsx` has
the manual override panel (`Home.EditLatitude`, `Home.EditLongitude`,
`Home.SetManualLocation`, `Home.ShowOverride`).

How the host is represented:

- The position stream, its error callback and the 15-second timer are events (`Event`)
  delivered to a `Sampler` object. The watch and the timer are boolean "active" flags.
  The host delivers readings and errors only while the watch is active, and the deadline
  only while the timer is active.
- `canClearWatch` stands for the source's `if (navigator.geolocation.clearWatch)` guard.
  Without `clearWatch` the watch stays active and readings keep arriving, but the settled
  promise never changes (`SingleSettlement`).
- Every remote call (the nearby listing, upload, private download, the file fetch, the
  IP lookup) is an outcome passed in as a parameter. Each handler returns the requests
  it sends, in order.
- `Date.now()` is a `now` parameter in integer milliseconds. Coordinates and accuracies
  are `real`.

For accuracy 150 m the search radius is `Math.min(500, 200 + 150)`, that is 350 m
(`SearchRadiusExamples`). After "Set Location" the method stays "Network" while the
accuracy becomes 10 m, so a network location does not always carry 1000 m. `Home.Valid`
keeps only "location, accuracy and method are set together".

## Model

| member | source | states |
|---|---|---|
| Geo.AverageLocation | src/App.jsx:14-21 | null exactly for no readings; otherwise each coordinate lies between the smallest and largest input coordinate |
| Geo.MeanWithin | droplr-frontend/src/App.jsx:14-23 | every mean (latitude, longitude, accuracy) lies between the minimum and maximum of its inputs |
| Geo.AverageFix | src/App.jsx:76-79 | the resolved value carries the average location and a mean accuracy bounded by the input accuracies |
| Geo.SingleReadingUnchanged | droplr-frontend/src/App.jsx:17-22 | averaging one reading returns that reading's coordinates and accuracy |
| Geo.AverageAccuracyBounded | droplr-frontend/src/App.jsx:82-89 | if every averaged reading is within a bound (50 m for accepted readings), so is the mean accuracy |
| GpsSampler.Begin | src/App.jsx:57-70 | without geolocation the promise rejects "not supported" at once with no watch and no timer; otherwise the watch and the timer start with no readings |
| GpsSampler.OnPosition | src/App.jsx:71-87 | a reading over 50 m or one arriving with the watch cleared changes nothing; an accepted one is appended; the third resolves with the mean of the readings and clears the timer and the watch; a settled promise stays settled |
| GpsSampler.OnStreamError | src/App.jsx:88-94 | a stream error rejects unless already settled and clears both the timer and the watch |
| GpsSampler.OnDeadline | src/App.jsx:100-116 | at the deadline the sampler resolves with the mean of its readings or, with none, rejects with a timeout; the watch is cleared either way |
| GpsSampler.StepConsistent | src/App.jsx:68-116 | every event keeps the invariant: before settlement the watch and timer run with fewer than 3 accepted readings; after it the timer is gone and a resolved fix is at most 50 m inaccurate |
| GpsSampler.RunConsistent | droplr-frontend/src/App.jsx:75-139 | the invariant holds after any sequence of events |
| GpsSampler.ResolvedFixIsConfident | droplr-frontend/src/App.jsx:82-99 | any fix the sampler resolves with has accuracy at most 50 m |
| GpsSampler.SettledStaysSettled | src/App.jsx:84 | once settled, no later event changes the settlement |
| GpsSampler.SingleSettlement | src/App.jsx:58-117 | whatever a prefix of the events settled on is the final outcome of any longer sequence |
| GpsSampler.RunAppend | src/App.jsx:95-99 | delivering two event sequences one after the other equals delivering their concatenation |
| GpsSampler.UnsupportedNeverSubscribes | src/App.jsx:59-62 | without geolocation no event ever changes the rejected state |
| GpsSampler.RejectedReadingsIrrelevant | src/App.jsx:73 | dropping every reading over 50 m from the event sequence leaves the final state unchanged |
| GpsSampler.CollectsUntilThird | droplr-frontend/src/App.jsx:82-85 | with only readings and fewer than 3 accepted, the sampler holds exactly the accepted readings and is still pending |
| GpsSampler.SettlesOnThird | src/App.jsx:75-85 | with only readings and at least 3 accepted, the promise resolved with the mean of exactly the first 3 accepted readings, and the timer and the watch are cleared |
| GpsSampler.DeadlineSettles | droplr-frontend/src/App.jsx:118-139 | at the deadline with 1 or 2 accepted readings it resolves with their mean; with 0 it rejects with a timeout; the watch is cleared |
| GpsSampler.StreamErrorRejects | droplr-frontend/src/App.jsx:104-110 | a stream error before settlement rejects and clears the timer and the watch |
| GpsSampler.Sampler.constructor | droplr-frontend/src/App.jsx:62-77 | the promise executor's state equals `Begin` |
| GpsSampler.Sampler.OnReading | droplr-frontend/src/App.jsx:79-102 | the new state is `OnPosition` of the old, so a settlement is never replaced (`SettledStaysSettled`); the invariant is kept |
| GpsSampler.Sampler.OnError | droplr-frontend/src/App.jsx:104-110 | the new state is `OnStreamError` of the old; the invariant is kept |
| GpsSampler.Sampler.OnTimeout | droplr-frontend/src/App.jsx:118-139 | the new state is `OnDeadline` of the old; the invariant is kept |
| GpsSampler.AcquireFix | src/App.jsx:57-118 | one `getGPSLocation` call driven by host events settles exactly as the event-by-event specification `Run` says |
| LocationResolver.ZeroCoordinateFails | src/App.jsx:124-133 | a zero or missing latitude or longitude fails the lookup, whatever the other coordinate is |
| LocationResolver.NetworkLocationRoundTrip | src/App.jsx:120-134 | a body reporting a location with non-zero coordinates yields exactly that location, and every location the lookup yields comes from such a body |
| LocationResolver.ResolveIgnoresTheOtherSource | src/App.jsx:23-55 | once GPS resolved, every network reply gives the same GPS result; once GPS failed, the kind of failure makes no difference |
| LocationResolver.ResolvedLocationTrustworthy | src/App.jsx:23-55 | a location from a sampler run plus the fallback is a GPS fix at most 50 m inaccurate or a network location with non-zero coordinates |
| LocationResolver.Home.GetLocation | droplr-frontend/src/App.jsx:25-60 | the network is queried only after GPS fails; GPS sets method GPS with the mean accuracy; network sets method Network with accuracy 1000; total failure sets the error and keeps the previous location, accuracy and method; loading ends false |
| LocationResolver.Home.constructor | src/App.jsx:5-11 | no location, no error, loading, not navigating |
| LocationResolver.Home.EditLatitude | src/App.jsx:299-306 | editing the latitude field changes only the latitude |
| LocationResolver.Home.EditLongitude | src/App.jsx:314-321 | editing the longitude field changes only the longitude |
| LocationResolver.Home.SetManualLocation | src/App.jsx:325 | "Set Location" sets accuracy to 10 and leaves the method as it was |
| LocationResolver.Home.HandleProceed | droplr-frontend/src/App.jsx:168-180 | no-op without a location; otherwise sets navigating and passes exactly the current latitude, longitude, accuracy and method |
| LocationResolver.DetectOnMount | src/App.jsx:284-286 | after the mount-time `getLocation`, the override panel is offered after a network fallback and never after a GPS fix |
| LocationResolver.AccuracyText | src/App.jsx:164-169 | the text names the band: Excellent up to 10 m, Good up to 50 m, Fair up to 100 m, Poor above, upper bounds inclusive |
| LocationResolver.AccuracyColor | droplr-frontend/src/App.jsx:182-187 | each colour class corresponds to one band, for both palettes |
| LocationResolver.TextAndColorAgree | src/App.jsx:157-169 | two accuracies get the same text exactly when they get the same colour |
| LocationResolver.BandMonotone | droplr-frontend/src/App.jsx:189-194 | a larger accuracy value never falls in a better band |
| LocationResolver.BandExamples | src/App.jsx:165-168 | 10 is Excellent, 10.0001 Good, 50 Good, 100 Fair, 100.0001 Poor |
| Countdown.RemainingTime | src/pages/Zone.jsx:39-42 | never negative; at most 1200000 once created; zero exactly when 20 minutes have passed; otherwise elapsed plus remaining is the full lifetime |
| Countdown.RemainingTimeNonIncreasing | src/pages/Zone.jsx:75-78 | a later instant never leaves more time |
| Countdown.WithRemaining | src/pages/Zone.jsx:73-79 | a listing keeps every server record in order and adds its remaining time at `now` |
| Countdown.Tick | src/pages/Zone.jsx:36-43 | the tick keeps length, order and every record field, and recomputes only the remaining time, so expired entries stay |
| Countdown.TickIdempotent | src/pages/Zone.jsx:34-48 | two ticks at the same instant equal one |
| Countdown.TickNonIncreasing | src/pages/Zone.jsx:35-45 | a later tick never increases any entry's remaining time |
| Countdown.TickMatchesRefetch | src/pages/Zone.jsx:36-43 | ticking a listing fetched earlier gives the listing as fetched at the tick |
| Countdown.NatToString | src/pages/Zone.jsx:56 | the decimal rendering is all digits, reads back as the number, has no leading zero, and has 1 digit below 10 and 2 below 100 |
| Countdown.PadStart2 | src/pages/Zone.jsx:56 | strings of 2 or more characters are kept; shorter ones are left-padded with "0" to length 2 |
| Countdown.FormatRemainingTime | src/pages/Zone.jsx:50-57 | "Expired" exactly when the time is at most 0; otherwise an `m:ss` face reading back as (rt div 60000, (rt mod 60000) div 1000) whose minutes have no leading zero, which fixes the face uniquely |
| Countdown.ClockNeverRoundsUp | src/pages/Zone.jsx:53-54 | the face shows fewer than 60 seconds and the largest whole second not above the remaining time |
| Countdown.FormatExamples | src/pages/Zone.jsx:50-57 | 0 is "Expired", 61000 is "1:01", 1199999 is "19:59", 999 is "0:00" |
| Countdown.ClockFaceReadsBack | src/pages/Zone.jsx:54-56 | minutes, a colon and two digits of seconds read back as those two numbers |
| Countdown.CountdownScenario | src/pages/Zone.jsx:39-57 | a file created 19 minutes ago shows "1:00"; one created 20 minutes ago shows "Expired" |
| FileIcons.ToLower | src/pages/Zone.jsx:216 | upper-case ASCII letters map to lower case; everything else, dots included, is unchanged |
| FileIcons.LowerCase | src/pages/Zone.jsx:216 | lower-cases each character and keeps the length |
| FileIcons.AfterLastDot | src/pages/Zone.jsx:216 | the result has no dot and is a suffix of the name, preceded by a dot unless it is the whole name |
| FileIcons.FileIcon | src/pages/Zone.jsx:215-247 | the icon is the table entry of the lower-cased extension, or the default icon when there is none |
| FileIcons.LowerCaseIdempotent | src/pages/Zone.jsx:216 | lower-casing twice equals lower-casing once |
| FileIcons.AfterLastDotLowerCase | src/pages/Zone.jsx:216 | lower-casing commutes with taking the text after the last dot |
| FileIcons.IconIgnoresCase | src/pages/Zone.jsx:215-216 | a name and its lower-cased form have the same extension and the same icon |
| FileIcons.AfterLastDotOfDotted | src/pages/Zone.jsx:216 | the extension of `stem.ext` is `ext` for any stem when `ext` has no dot |
| FileIcons.IconOfDotted | src/pages/Zone.jsx:246 | the icon of `stem.ext` is looked up by the lower-cased `ext` alone |
| FileIcons.PictureEntries | src/pages/Zone.jsx:219-222 | jpg, jpeg, png and gif are table entries for the picture icon |
| FileIcons.PictureExtensions | src/pages/Zone.jsx:216-222 | every file whose extension lower-cases to jpg, jpeg, png or gif gets the picture icon |
| FileIcons.UpperCasePicture | src/pages/Zone.jsx:216-219 | any name ending ".JPG" gets the picture icon |
| DropZone.SearchRadius | src/pages/Zone.jsx:446-448 | 200 exactly when accuracy is absent, 0 or at most 100; otherwise in (300, 500], at most 200 + accuracy and equal to it below the cap |
| DropZone.SearchRadiusExamples | src/pages/Zone.jsx:446-448 | absent, 0, 50 and 100 give 200; 150 gives 350; 300 and 1000 give 500 |
| DropZone.NearbyQueryOmitsFalsyAccuracy | src/pages/Zone.jsx:62-67 | a zero accuracy is sent like a missing one, no query carries a falsy accuracy, and rebuilding a query from its own fields gives it back |
| DropZone.UploadPasswordOnlyWhenPrivate | src/pages/Zone.jsx:101-108 | a public upload sends the same form whatever password was typed; a private upload with an empty password sends none; a sent password is never empty and only private |
| DropZone.MessageOrNeverBlank | src/pages/Zone.jsx:122 | with a non-blank fallback the shown message is never blank, an empty server message counts as missing, and the result is the server message or the fallback |
| DropZone.Zone.constructor | src/pages/Zone.jsx:12-26 | the initial component state: empty list, no file, public visibility, empty passwords, no prompt |
| DropZone.Zone.Mount | src/pages/Zone.jsx:28-32 | the listing is fetched on mount exactly when latitude and longitude are truthy, with the same list, error and loading outcome per reply as `FetchNearbyFiles`; otherwise nothing changes |
| DropZone.Zone.FetchNearbyFiles | src/pages/Zone.jsx:59-90 | success replaces the whole list with the records and their remaining time; failure sets the matching error and keeps the list; loading ends false |
| DropZone.Zone.OnTick | src/pages/Zone.jsx:34-48 | the interval changes only the list, to `Tick` of the old list |
| DropZone.Zone.HandleUpload | src/pages/Zone.jsx:92-130 | no request and no change without a file or coordinates or above 104857600 bytes; otherwise the form is sent; success resets file, password and visibility and refetches, the list and error then following the listing reply; failure sets the error and keeps file, password, visibility, list and loading flag; uploading ends false |
| DropZone.Zone.DirectDownload | src/pages/Zone.jsx:144-163 | fetches the file URL; a failure sets the error; the downloading marker ends cleared |
| DropZone.Zone.DownloadDisabled | src/pages/Zone.jsx:646-649 | an entry whose countdown reads "Expired" has its download button disabled |
| DropZone.Zone.HandleDownload | src/pages/Zone.jsx:133-141 | a private file opens the prompt with the target set and the password cleared and sends nothing; a public file is fetched directly |
| DropZone.Zone.HandlePrivateDownload | src/pages/Zone.jsx:166-194 | nothing without a target; otherwise sends the id and password, fetches a granted URL, sets the error on failure, and always clears the prompt, target, password and downloading marker |
| DropZone.Zone.CancelPrompt | src/pages/Zone.jsx:756-760 | cancel closes the prompt and clears the target and the password |

The predicates `Home.ShowOverride` (src/App.jsx:284-286), `Zone.HasCoordinates`
(src/pages/Zone.jsx:29 and 93), `Zone.UploadDisabled` (src/pages/Zone.jsx:385) and
`Zone.PromptDownloadDisabled` (src/pages/Zone.jsx:750) transcribe the source's
conditions, and so do the functions `LocationResolver.NetworkLocation`
(src/App.jsx:120-134), `LocationResolver.Resolve` (src/App.jsx:23-55),
`DropZone.NearbyQueryFor` (src/pages/Zone.jsx:62-67), `DropZone.UploadFormFor`
(src/pages/Zone.jsx:101-108) and `DropZone.MessageOr` (src/pages/Zone.jsx:122); the
lemmas named beside them in the table state what they promise. `ParseClock` is the
reference reader of the `m:ss` face that `FormatRemainingTime` is proved against.

## Left out

- Markup, Tailwind classes, SVG paths, the `<style jsx>` block and the drag-and-drop handlers (src/pages/Zone.jsx:196-213) are presentation. The icons are named by group (`Icon`) instead of by SVG path.
- The browser I/O is not modelled: `fetch`, `response.json`, `FormData`, the Blob/`createObjectURL`/anchor download, and the ipapi.co request. Each is an outcome parameter. A listing reply whose `success` is true but whose `data` is missing (a throw in the source) is not distinguished from a thrown request.
- The Geolocation API options (`enableHighAccuracy`, `timeout: 10000`, `maximumAge: 30000`) are left out. They shape which readings and errors the host delivers, and those are inputs here. The 15-second timer is the `Deadline` event and is not a clock.
- `setTimeout`/`setInterval`/`Date.now()` are events or a `now` parameter. `Date` parsing of `createdAt` is left out; it is an integer of milliseconds.
- Floating point: averages are exact `real` means. `toFixed`, `parseFloat` and NaN (for example an emptied override input) are not modelled. `Truthy` treats only 0 as a falsy number.
- Overlapping asynchronous calls are not modelled. Each handler is one atomic step, including the refetch that `handleUpload` starts without awaiting. So a stale `getLocation` or `fetchNearbyFiles` response arriving after a newer one is not captured, and neither is the intermediate "downloading" state that disables the button while a fetch is in flight.
- Toasts, console logging, `locationHistory` (written, never read), `progress` (only 0 or 100), `handleRetry` (another `getLocation` call) and the plain input setters (`setFile`, `setVisibility`, `setPassword`, `setDownloadPassword`) are left out.
- The refresh button calls `fetchNearbyFiles` even when the coordinates are absent. `Zone.FetchNearbyFiles` allows this; its query then carries absent coordinates.
- FileIcons.FileIcon: the source looks the extension up in a plain object. The extensions "constructor" and "__proto__" therefore reach inherited properties and yield a non-string. The model gives them the default icon. `toLowerCase` is modelled on ASCII letters only.
- droplr-frontend/src/pages/Zone.jsx (a hard-coded mock list), the static pages, headers, footer and routers are markup and are not part of this model. src/config.js is not part of this model: the expiry of 1200000 ms is taken from droplr-frontend/src/config.js:4.
