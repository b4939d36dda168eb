# Emergency Care — a verified model of the app's logic

Emergency Care is a first-aid companion app. It has a web front end (Next.js pages) and a React Native
mobile app. Its screens list nearby hospitals, keep a directory of blood donors and a list of emergency
contacts, run an AI first-aid chat and a sign-in screen, and offer a light/dark theme. A service worker
keeps the web app usable offline. Under the screens sits a layer of small, deterministic rules, and this
project models that layer in Dafny and proves what the screens promise about it.

The project has one module per screen or script:

- `NearbyHospitalsPage`: the web hospital list.
  - Overpass elements become hospital records: coordinate fallback, name chain, address assembly, phone and type defaults.
  - Unusable entries are dropped, the rest sorted by distance, and at most 20 kept.
  - A six-entry sample list is used when no live data arrives.
  - The page state is updated by the search and by locating the user.
- `NearbyHospitalsScreen`: the mobile screen's fixed three-entry list and the default location.
- `Hospitals`: the hospital record and the case-insensitive search filter that both screens share.
- `Donors`, `DonorsPage`, `DonorsScreen`: the donor form and its required fields, and the match rule (name or location, and blood group). The web page keeps its list in local storage; the mobile screen uses the remote `donors` table.
- `Contacts`, `EmergencyContactsPage`, `EmergencyContactsScreen`:
  - the web page's contact list in local storage and its long-press-to-delete machinery;
  - the mobile screen's per-user rows in the remote `emergency_contacts` table.
- `ServiceWorker`: installing the static assets, the network-first fetch rule with its offline answers, and the cache cleanup on activation. The browser's cache storage is the class `CacheStorage`.
- `Assistant`, `AIAssistantScreen`: the chat log that both platforms share, and the mobile speech handlers.
- `AuthScreen`: the three modes, their links, fields and button label, and the submit dispatch.
- `Theme`: the dark flag, its toggle and the two palettes.

Shared helper modules:

- `Text` models the JavaScript string operations the rules use: `toLowerCase`, `includes`, `trim`, `||` on optional strings, `join`, `parseInt` and `toString` of a number.
- `Seqs` models `filter`, a stable `sort` by a numeric key and `slice(0, n)`.
- `Remote` models the remote database: a `Table<T>` of rows with an id, an owner and a creation time; queries that filter and order newest first; `insert` and `delete`.

Everything the app gets from outside is an input to the model:

- replies of the Overpass service, the AI endpoint and the authentication service;
- geolocation results and the permission answer;
- whether the browser offers speech synthesis;
- network results seen by the service worker;
- whether the database accepts a write;
- `Date.now()`;
- the distance function.

Screens whose source is stateful are Dafny classes whose methods change their fields. An `await` splits a handler into a Begin and a Finish method, and a third method runs both in sequence. Each pure rule is a function, and lemmas state what the rule guarantees.

## Model

| member | source | states |
|---|---|---|
| Text.Lower | app/nearby-hospitals/page.tsx:286-287 | lower-casing keeps the length, turns each ASCII capital into its small letter (code + 32) and keeps every other character |
| Text.ContainsOccurrence | app/nearby-hospitals/page.tsx:286 | `includes` holds exactly when the query occurs at some position of the text |
| Text.ContainsEmpty | app/nearby-hospitals/page.tsx:284-288 | every text includes the empty query |
| Text.TrimEmptyIffAllWhitespace | app/ai-assistant/page.tsx:48 | a text trims to "" exactly when it consists of whitespace only |
| Text.Or | app/nearby-hospitals/page.tsx:174 | `a \|\| b` is `a` when `a` is truthy and `b` otherwise, so it is truthy exactly when one side is |
| Text.JoinEmpty | app/nearby-hospitals/page.tsx:165-166 | joining non-empty parts gives "" exactly when there are no parts |
| Text.ParseDigits | app/donors/page.tsx:83 | a digit run parses to a number; the result is NaN exactly when the text does not start with a digit |
| Text.NatToString | app/donors/page.tsx:82 | a number's decimal text is non-empty and made of digits |
| Text.ParseIntRoundTrip | app/donors/page.tsx:83 | `parseInt` of the decimal text of n gives n back |
| Seqs.Filter | app/nearby-hospitals/page.tsx:181-184 | a filter is no longer than its input and keeps only satisfying elements of it |
| Seqs.FilterCounts | app/nearby-hospitals/page.tsx:181-184 | a filter keeps every occurrence of a satisfying element and drops every other element |
| Seqs.FilterConcat | app/nearby-hospitals/page.tsx:284-288 | filtering distributes over concatenation, so the kept elements stay in order |
| Seqs.FilterIdentity | app/donors/page.tsx:104-110 | a filter whose test every element passes returns its input |
| Seqs.SortBy | app/nearby-hospitals/page.tsx:185 | the sort returns a permutation of its input in non-decreasing key order |
| Seqs.Take | app/nearby-hospitals/page.tsx:186 | `slice(0, n)` is a prefix of at most n elements, and the whole list when it is short |
| Seqs.TakeOfSorted | app/nearby-hospitals/page.tsx:185-186 | the first n of a sorted list are sorted and no element left out has a smaller key than one kept |
| Seqs.TakeSubMultiset | app/nearby-hospitals/page.tsx:186 | `slice(0, n)` keeps no element more often than the list has it |
| Remote.SelectSpec | src/screens/DonorsScreen.tsx:45-49 | a query returns exactly the matching rows, each as often as stored, newest first |
| Remote.WithoutSpec | src/screens/EmergencyContactsScreen.tsx:72 | a delete drops every matching row and keeps every other row as often as stored |
| Remote.Table.Insert | src/screens/DonorsScreen.tsx:62-69 | an accepted insert appends the row; a refused one changes nothing |
| Remote.Table.Delete | src/screens/EmergencyContactsScreen.tsx:72 | an accepted delete removes the matching rows; a refused one changes nothing |
| Hospitals.SearchFilterExact | app/nearby-hospitals/page.tsx:284-288 | the search keeps exactly the hospitals whose name or address includes the query ignoring case, in their order |
| Hospitals.EmptyQueryShowsAll | src/screens/NearbyHospitalsScreen.tsx:143-147 | an empty search shows every hospital |
| NearbyHospitalsPage.NumberOr | app/nearby-hospitals/page.tsx:145-146 | a non-zero own value wins; otherwise a non-zero center value; the result is 0 exactly when both are missing or 0 |
| NearbyHospitalsPage.HospitalNameChain | app/nearby-hospitals/page.tsx:151-155 | the name is `name`, else `name:en`, else `healthcare:speciality`, else "Clinic" for clinics and "Hospital" otherwise |
| NearbyHospitalsPage.PresentValues | app/nearby-hospitals/page.tsx:158-165 | the address parts kept are non-empty, and none is kept exactly when all are missing or empty |
| NearbyHospitalsPage.PresentValuesSpec | app/nearby-hospitals/page.tsx:158-165 | the kept parts are exactly the five tag texts filtered by `Boolean`, in key order |
| NearbyHospitalsPage.AddressSpec | app/nearby-hospitals/page.tsx:157-168 | the address is the joined parts, else `addr:full`, else "Address not available", and never empty |
| NearbyHospitalsPage.Kind | app/nearby-hospitals/page.tsx:178 | the type is `amenity`, else `healthcare`, else "hospital" |
| NearbyHospitalsPage.Phone | app/nearby-hospitals/page.tsx:174 | the phone is the `phone` tag when non-empty, else the `contact:phone` tag, possibly absent |
| NearbyHospitalsPage.Normalize | app/nearby-hospitals/page.tsx:144-179 | an element yields no record exactly when its resolved latitude or longitude is 0; otherwise the record has the element's id, its resolved position, the distance to it, and the name, address, phone and type rules applied to its tags |
| NearbyHospitalsPage.NormalizedSpec | app/nearby-hospitals/page.tsx:143-180 | every record comes from an element of the reply, and every element with a position yields its record in the list |
| NearbyHospitalsPage.NormalizedConcat | app/nearby-hospitals/page.tsx:143-180 | records come out in reply order: two parts of a reply give their records one after the other |
| NearbyHospitalsPage.LiveHospitalsSpec | app/nearby-hospitals/page.tsx:181-186 | the live list is sorted by distance and holds min(20, usable) hospitals, all named and within 50 km and made from the reply; no usable hospital left out is nearer than one kept, and no hospital appears more often than among the usable ones |
| NearbyHospitalsPage.FallbackSpec | app/nearby-hospitals/page.tsx:191-250 | the sample list has six hospitals of type "hospital", sorted by distance; each is the base entry whose position gave its id "fallback-i", and all six ids occur |
| NearbyHospitalsPage.SearchOutcomeSpec | app/nearby-hospitals/page.tsx:86-111 | a non-empty live list is shown without a message; an empty one or a failed request shows the sample list with a message; the list is never empty and always sorted |
| NearbyHospitalsPage.LocationNoticeLost | app/nearby-hospitals/page.tsx:86-88 | no search ever leaves the geolocation notices as its message |
| NearbyHospitalsPage.LocateMessage | app/nearby-hospitals/page.tsx:44-46 | after a failed or unsupported geolocation some message remains; the search's own message wins |
| NearbyHospitalsPage.Page.constructor | app/nearby-hospitals/page.tsx:21-25 | the page starts with no hospitals, not loading, no location, no query and no message |
| NearbyHospitalsPage.Page.BeginSearch | app/nearby-hospitals/page.tsx:87-88 | a search starts loading and clears the message |
| NearbyHospitalsPage.Page.FinishSearch | app/nearby-hospitals/page.tsx:90-110 | the reply leaves exactly the search outcome's list and message, and loading stops |
| NearbyHospitalsPage.Page.SearchNearbyHospitals | app/nearby-hospitals/page.tsx:86-111 | a whole search leaves the outcome's list and message and stops loading |
| NearbyHospitalsPage.Page.GetCurrentLocationAsWritten | app/nearby-hospitals/page.tsx:31-66 | as the page has it: the located or default location is searched, and the geolocation notice never survives |
| NearbyHospitalsPage.Page.GetCurrentLocation | app/nearby-hospitals/page.tsx:31-66 | corrected (first Findings row): the located position, or Delhi, is stored and searched, and the message is the search's own or else the geolocation notice |
| NearbyHospitalsPage.Page.SetSearchQuery | app/nearby-hospitals/page.tsx:24 | typing replaces the query |
| NearbyHospitalsScreen.MockHospitalsSpec | src/screens/NearbyHospitalsScreen.tsx:90-118 | three hospitals with ids "1", "2", "3", at 1.2, 2.5 and 3.1 km in that order, offset by +0.01/+0.01, +0.02/+0.02 and -0.01/-0.01 |
| NearbyHospitalsScreen.Screen.constructor | src/screens/NearbyHospitalsScreen.tsx:32-38 | the screen starts with no hospitals, not loading, no query and no location |
| NearbyHospitalsScreen.Screen.SearchNearbyHospitals | src/screens/NearbyHospitalsScreen.tsx:86-126 | a search installs the three sample hospitals around the location and stops loading |
| NearbyHospitalsScreen.Screen.GetCurrentLocation | src/screens/NearbyHospitalsScreen.tsx:65-84 | the located position, or Delhi (28.6139, 77.209) on an error, is stored and searched |
| NearbyHospitalsScreen.Screen.RequestLocationPermission | src/screens/NearbyHospitalsScreen.tsx:44-63 | on Android a refused permission changes nothing; otherwise the screen locates and searches |
| NearbyHospitalsScreen.Screen.SetSearchQuery | src/screens/NearbyHospitalsScreen.tsx:34 | typing replaces the query |
| Donors.InfoFromForm | src/screens/DonorsScreen.tsx:62-69 | a registration keeps the form's name, group, phone, gender and location, stores the age as `parseInt` reads it (NaN as none), and is available |
| Donors.AgeReadBack | src/screens/DonorsScreen.tsx:66 | an age typed as the decimal text of a number n is stored as n |
| Donors.AgeLeftEmpty | src/screens/DonorsScreen.tsx:66 | an age left empty is NaN and is stored as no age |
| Donors.MatchesEveryDonor | app/donors/page.tsx:104-110 | an empty query with the "any group" value matches every donor |
| Donors.GroupFilterExcludes | src/screens/DonorsScreen.tsx:96 | with a specific group picked, no donor of another group matches |
| Donors.GroupPickerSelects | src/screens/DonorsScreen.tsx:38 | the pickers offer eight distinct groups, and picking one of them (the "any group" value being none of them) lists only donors of that group |
| DonorsPage.FilterDonorsSpec | app/donors/page.tsx:104-110 | a donor is listed, as often as stored and in order, exactly when name or location includes the query and the group filter is "All Blood Groups" or the donor's group |
| DonorsPage.InitialFiltersShowAll | app/donors/page.tsx:25-26 | the initial query and group filter list every donor |
| DonorsPage.AddedDonors | app/donors/page.tsx:77-88 | without name, group or phone nothing is added; otherwise exactly one donor is appended, the form's details under the given id (text fields copied, age parsed, available), and the others are kept in order |
| DonorsPage.Page.constructor | app/donors/page.tsx:38-70 | the saved list is loaded, else the two sample donors are installed and saved |
| DonorsPage.Page.SaveDonors | app/donors/page.tsx:72-75 | storage holds the list the page shows |
| DonorsPage.Page.AddDonor | app/donors/page.tsx:77-98 | adds as stated by AddedDonors, saves it, resets the form and closes it; an incomplete form changes nothing |
| DonorsPage.Page.EditForm | app/donors/page.tsx:27-34 | editing replaces the form |
| DonorsPage.Page.SetFilters | app/donors/page.tsx:25-26 | the search box and the group picker replace the filters |
| DonorsScreen.AvailableDonorsSpec | src/screens/DonorsScreen.tsx:44-54 | the screen asks for exactly the available donors, newest first |
| DonorsScreen.DonorRow | src/screens/DonorsScreen.tsx:62-69 | the inserted row is the form with the user's id, the parsed age and available |
| DonorsScreen.FilterDonorsSpec | src/screens/DonorsScreen.tsx:92-98 | a donor is listed exactly when it matches the query and the group is "All" or equal; an empty query with "All" lists everyone |
| DonorsScreen.Screen.constructor | src/screens/DonorsScreen.tsx:25-36 | the screen starts empty with the "All" group filter |
| DonorsScreen.Screen.FetchDonors | src/screens/DonorsScreen.tsx:44-54 | the list becomes the available donors, newest first, only when data comes back |
| DonorsScreen.Screen.AddDonor | src/screens/DonorsScreen.tsx:56-86 | a missing field or user raises the fill-in alert and inserts nothing; an accepted insert adds the row, resets and closes the form, refetches and confirms; a refused one keeps the form and raises the failure alert |
| DonorsScreen.Screen.EditForm | src/screens/DonorsScreen.tsx:29-36 | editing replaces the form |
| DonorsScreen.Screen.SetFilters | src/screens/DonorsScreen.tsx:27-28 | the search box and the group picker replace the filters |
| EmergencyContactsPage.AddedContacts | app/emergency-contacts/page.tsx:43-52 | without name or phone nothing is added; otherwise exactly one contact is appended after the others |
| EmergencyContactsPage.RemoveContactSpec | app/emergency-contacts/page.tsx:57-61 | deleting removes every contact with the id and keeps each other one, in order; an unknown id changes nothing |
| EmergencyContactsPage.IdleInvariant | app/emergency-contacts/page.tsx:27-28 | the initial long-press state is consistent |
| EmergencyContactsPage.PressStartSpec | app/emergency-contacts/page.tsx:67-77 | a press marks its contact, leaves exactly its own timer scheduled and keeps taps from dialling |
| EmergencyContactsPage.PressEndCancels | app/emergency-contacts/page.tsx:79-85 | releasing clears the pressed contact and cancels every timer, so no confirmation opens later |
| EmergencyContactsPage.FireOpensForPressed | app/emergency-contacts/page.tsx:69-71 | a timer that fires opens the confirmation for the contact being pressed and ends the press |
| EmergencyContactsPage.PressStartAsWrittenLeaksTimer | app/emergency-contacts/page.tsx:67-77 | as the page has it, two presses and a release leave the first timer running, and it opens a confirmation |
| EmergencyContactsPage.Page.constructor | app/emergency-contacts/page.tsx:30-36 | the saved list is loaded, else the list is empty |
| EmergencyContactsPage.Page.SaveContacts | app/emergency-contacts/page.tsx:38-41 | storage holds the list the page shows |
| EmergencyContactsPage.Page.AddContact | app/emergency-contacts/page.tsx:43-55 | adds as stated by AddedContacts, saves it, resets the form and closes it; an incomplete form changes nothing |
| EmergencyContactsPage.Page.DeleteContact | app/emergency-contacts/page.tsx:57-61 | removes as stated by RemoveContactSpec, saves it and closes the confirmation |
| EmergencyContactsPage.Page.ConfirmDelete | app/emergency-contacts/page.tsx:295 | the confirmation's Delete removes the contact it was opened for |
| EmergencyContactsPage.Page.CancelDelete | app/emergency-contacts/page.tsx:288 | Cancel closes the confirmation and nothing else |
| EmergencyContactsPage.Page.LongPressStart | app/emergency-contacts/page.tsx:67-77 | a press, corrected to clear the timer of a press still held, marks the contact, leaves exactly its own timer scheduled and stops taps from dialling |
| EmergencyContactsPage.Page.LongPressEnd | app/emergency-contacts/page.tsx:79-85 | a release clears the pressed contact, leaves no timer scheduled and lets taps dial again |
| EmergencyContactsPage.Page.TimerFires | app/emergency-contacts/page.tsx:69-71 | a timer still scheduled opens the confirmation for its contact; a cancelled one does nothing |
| EmergencyContactsPage.Page.ContactClick | app/emergency-contacts/page.tsx:87-92 | a tap dials the contact's number exactly when no contact is being long-pressed |
| EmergencyContactsPage.TapDuringPress | app/emergency-contacts/page.tsx:67-92 | a tap between a press and its release does not dial, one after the release does, and a press replaced by a second one never fires |
| EmergencyContactsPage.Page.EditForm | app/emergency-contacts/page.tsx:21-25 | editing replaces the form |
| EmergencyContactsScreen.OwnContactsSpec | src/screens/EmergencyContactsScreen.tsx:35-39 | a user gets exactly their own contacts, each as often as stored, newest first |
| EmergencyContactsScreen.NewestContactFirst | src/screens/EmergencyContactsScreen.tsx:35-39 | a contact added after all others is listed first |
| EmergencyContactsScreen.ContactRow | src/screens/EmergencyContactsScreen.tsx:49-54 | the inserted row is the form with the user's id |
| EmergencyContactsScreen.DeleteScoped | src/screens/EmergencyContactsScreen.tsx:72 | a delete removes only the user's rows with that id; every other row stays, and with no user nothing is deleted |
| EmergencyContactsScreen.Screen.constructor | src/screens/EmergencyContactsScreen.tsx:20-26 | the screen starts with no contacts and an empty, closed form |
| EmergencyContactsScreen.Screen.FetchContacts | src/screens/EmergencyContactsScreen.tsx:32-44 | without a user nothing happens; otherwise the list becomes the user's contacts, newest first, when data comes back |
| EmergencyContactsScreen.Screen.AddContact | src/screens/EmergencyContactsScreen.tsx:46-63 | a missing name, phone or user changes nothing; an accepted insert adds the row, resets and closes the form and refetches; a refused one keeps the form and alerts |
| EmergencyContactsScreen.Screen.DeleteContact | src/screens/EmergencyContactsScreen.tsx:65-80 | only a confirmed, accepted delete removes rows, exactly those of DeleteScoped, and the list is refetched |
| EmergencyContactsScreen.Screen.EditForm | src/screens/EmergencyContactsScreen.tsx:22-26 | editing replaces the form |
| ServiceWorker.MatchInSpec | public/sw.js:40 | a cache match exists exactly when some cache holds the URL, and it is the entry of the first such cache |
| ServiceWorker.FetchAnswerSpec | public/sw.js:22-54 | a network response is passed on unchanged; offline, a static asset is answered only from a cache that holds it (never for non-GET), anything else with the 503 JSON error |
| ServiceWorker.CachedServedOffline | public/sw.js:25-41 | once a static asset's response has been cached, a failed network still gets an answer |
| ServiceWorker.FirstInstallServesAssets | public/sw.js:8-14 | a successful first install caches exactly the four static assets, each then served offline as fetched |
| ServiceWorker.RemoveNameSpec | public/sw.js:66 | deleting a cache name drops every occurrence of it and keeps every other name as often as it was there; an absent name changes nothing |
| ServiceWorker.ActivateStep | public/sw.js:61-69 | one step of activation deletes a stale name where it stands and keeps a current one |
| ServiceWorker.CacheStorage.constructor | public/sw.js:10 | the cache storage starts with no caches |
| ServiceWorker.CacheStorage.Open | public/sw.js:10 | opening creates a missing cache, after the existing ones, and keeps an existing one |
| ServiceWorker.CacheStorage.Put | public/sw.js:31 | a put stores the response under the request URL in that cache only |
| ServiceWorker.CacheStorage.PutAll | public/sw.js:12 | `addAll` writes all fetched responses into the cache at once |
| ServiceWorker.CacheStorage.Delete | public/sw.js:66 | deleting removes that cache and its name and nothing else |
| ServiceWorker.Install | public/sw.js:8-17 | install opens the static cache and stores the four assets only when every one of them arrives with a 2xx status |
| ServiceWorker.HandleFetch | public/sw.js:20-56 | the answer is the network-first answer, and the static cache changes exactly for a 200 GET of a static asset |
| ServiceWorker.Activate | public/sw.js:58-74 | activation deletes every cache except the two current ones and keeps those two with their contents |
| Assistant.ReplyContent | app/ai-assistant/page.tsx:72-96 | the assistant's message is never empty |
| Assistant.ReplyContentSpec | app/ai-assistant/page.tsx:72-96 | a non-empty response is shown as is, an empty or missing one as the "couldn't process" text, a failure as the error text, and the two texts differ |
| Assistant.IsBlankSpec | app/ai-assistant/page.tsx:48 | a message is blank, that is whitespace only, exactly when `trim()` leaves nothing, and the empty message is blank |
| Assistant.QuickQuestionsAreSent | app/ai-assistant/page.tsx:33-40 | every quick question is non-empty after `trim()`, so each button sends its question |
| Assistant.AppendKeepsOrder | app/ai-assistant/page.tsx:57-79 | appending a question, or an answer while a question is open, keeps every answer after its question |
| Assistant.Chat.constructor | app/ai-assistant/page.tsx:20-30 | the chat starts with the greeting alone (id "1", not the user's), an empty input and no loading |
| Assistant.Chat.BeginSend | app/ai-assistant/page.tsx:47-59 | a blank message changes nothing; otherwise the question is appended, the input cleared and loading started |
| Assistant.Chat.FinishSend | app/ai-assistant/page.tsx:61-99 | the reply's message is appended after everything before it, and loading stops |
| Assistant.Chat.Send | app/ai-assistant/page.tsx:47-100 | a whole send appends the question and then its answer, clears the input and stops loading |
| Assistant.Chat.SubmitInput | app/ai-assistant/page.tsx:102-105 | submitting sends the current input |
| Assistant.Chat.SetInput | app/ai-assistant/page.tsx:107-109 | typing or a transcript replaces the input |
| Assistant.SpokenOnWeb | app/ai-assistant/page.tsx:82-87 | the web page reads aloud exactly the non-empty responses, and only in a browser that offers speech synthesis |
| AIAssistantScreen.SpokenOnMobile | src/screens/AIAssistantScreen.tsx:143-153 | the screen reads aloud the message of every answered request |
| AIAssistantScreen.SpeechDiffers | src/screens/AIAssistantScreen.tsx:143-153 | both platforms read a non-empty answer (the web page where speech synthesis is offered) and stay silent on failure; only mobile reads out the fallback text |
| AIAssistantScreen.Screen.constructor | src/screens/AIAssistantScreen.tsx:19-30 | the screen starts with the greeting alone and not listening |
| AIAssistantScreen.Screen.SpeechStart | src/screens/AIAssistantScreen.tsx:58-61 | speech start sets listening |
| AIAssistantScreen.Screen.SpeechEnd | src/screens/AIAssistantScreen.tsx:63-66 | speech end clears listening |
| AIAssistantScreen.Screen.SpeechError | src/screens/AIAssistantScreen.tsx:73-77 | a speech error clears listening |
| AIAssistantScreen.Screen.SpeechResults | src/screens/AIAssistantScreen.tsx:68-71 | a result puts its first transcript in the input |
| AIAssistantScreen.Screen.QuickQuestion | src/screens/AIAssistantScreen.tsx:321 | a quick question is sent with its answer, whatever the input holds |
| AuthScreen.SwitchesSpec | src/screens/AuthScreen.tsx:249-279 | the only mode switches are sign-in to reset, sign-in to sign-up, sign-up to sign-in and reset to sign-in |
| AuthScreen.SubmitLabel | src/screens/AuthScreen.tsx:239-245 | the label is "Loading..." exactly while loading |
| AuthScreen.SubmitLabelsDiffer | src/screens/AuthScreen.tsx:239-245 | when not loading each mode has its own label |
| AuthScreen.ActionFor | src/screens/AuthScreen.tsx:32-61 | submit makes exactly the mode's call, with the fields that mode shows: full name only for sign-up, password except for reset |
| AuthScreen.AlertFor | src/screens/AuthScreen.tsx:43-63 | an error alerts with its message; a sign-up that returns a user and a reset confirm by alert; a sign-in stays silent |
| AuthScreen.Screen.constructor | src/screens/AuthScreen.tsx:21-26 | the screen starts in sign-in mode, with empty fields, not loading |
| AuthScreen.Screen.Follow | src/screens/AuthScreen.tsx:249-279 | a link switches to its target mode, which is a permitted switch |
| AuthScreen.Screen.TogglePasswordVisibility | src/screens/AuthScreen.tsx:230 | the eye button flips password visibility |
| AuthScreen.Screen.BeginSubmit | src/screens/AuthScreen.tsx:28-61 | submit starts loading and makes the mode's call |
| AuthScreen.Screen.FinishSubmit | src/screens/AuthScreen.tsx:62-66 | the alert for the call made is shown and loading stops, on success and on error |
| AuthScreen.Screen.HandleSubmit | src/screens/AuthScreen.tsx:28-67 | a whole submit makes the mode's call, shows its alert and ends not loading |
| Theme.ColorsFor | src/providers/ThemeProvider.tsx:58 | the palette is the dark one exactly when dark, else the light one |
| Theme.DefaultContextIsInitial | src/providers/ThemeProvider.tsx:37-41 | the default context is not dark and uses the light palette |
| Theme.ThemeProvider.constructor | src/providers/ThemeProvider.tsx:52 | the provider starts light |
| Theme.ThemeProvider.Toggle | src/providers/ThemeProvider.tsx:54-56 | a toggle negates the flag and switches to the other palette |

## Left out

- Network, storage and browser results are inputs to the model. This covers Overpass and AI replies, geolocation, the permission dialog, `localStorage` text and JSON parsing, and the remote database's answers.
- The distance function is an input: the haversine formula and rounding to two decimals use floating point.
- All other arithmetic is exact (`real` and `int`). The sample hospitals' `location.lat + offset` sums are not rounded to doubles. `Text.ParseInt` returns the exact integer where `parseInt` rounds numbers beyond 2^53.
- `NearbyHospitalsPage.Page.GetCurrentLocation` is the corrected locate-then-search of the first Findings row: the geolocation notice stays unless the search brings its own message. The page as written is `NearbyHospitalsPage.Page.GetCurrentLocationAsWritten`.
- Time stamps on messages and the `lastRefresh` time are left out. `Date.now()` values are inputs: a chat message's id (`Date.now()` as text, the reply's that time plus one) is a parameter of the send methods.
- The web hospital page's five-minute auto-refresh timer is left out. It only calls the modelled search again.
- Dialling, directions, haptic feedback, scrolling, animations, installing the app, network-status banners and the voice-input component on the web page are left out. They open URLs or drive the UI and decide nothing.
- The calls `callContact`, `callDonor` and `callHospital` are left out. They only open a `tel:` link.
- `Text.Lower` only lowers ASCII letters, because JavaScript's full Unicode case mapping is out of scope.
- `Text.ParseInt` covers what `Number.parseInt` does with one argument: leading whitespace, sign, a `0x` prefix and the longest digit run. NaN is None.
- Overlapping searches and overlapping submits are not modelled: each Begin is followed by its Finish. The chat is the exception, where a quick question can start a second request while one is pending, and `Assistant.Chat` allows that.
- `EmergencyContactsScreen.Screen.FetchContacts` and `DonorsScreen.Screen.FetchDonors` take the refetch that follows a write to return data. A failed refetch keeps the old list, which these methods also model when called directly.
- `EmergencyContactsScreen.Screen.DeleteContact` models the case with no signed-in user as deleting no row. The filter then compares `user_id` with an undefined value.
- `AIAssistantScreen.Screen.SpeechResults` requires a non-empty list of transcripts. The source reads the first one without a check.
- `ServiceWorker.Install` keys cached assets by origin and path. It takes `addAll` to reject on any response outside 2xx, as the Cache API specifies. `skipWaiting` and `clients.claim` are left out; they only change which worker controls the page.
- Install: a rejected install leaves the cache storage as it was. The browser's discarding of a worker whose install promise rejects is not modelled, because the worker lifecycle is outside the model.
- `EmergencyContactsPage.Page.LongPressStart` runs the corrected press start `PressStart` of the second Findings row, which clears a pending timer first. The page as written is modelled by `PressStartAsWritten` only. The class's `Valid()` holds `PressInvariant`, which the page as written breaks after two presses without a release.
- The cache `put` in `ServiceWorker.HandleFetch` is not awaited in the source. The model performs it before answering, which changes nothing observable in the answer.
- Types shared by the two platforms are merged: a hospital's `type` is None on mobile, and donor rows carry an owner only on mobile.

## Findings

| source | as written | input that shows it | evidently intended | confidence | as-written member | corrected member |
|---|---|---|---|---|---|---|
| app/nearby-hospitals/page.tsx:44-50 | the geolocation error handler sets the "Unable to get your location" message and then calls `searchNearbyHospitals`, whose first step `setError(null)` clears it (the "not supported" branch at lines 60-63 does the same) | a geolocation error, followed by a reply with live hospitals: no message is shown, although the list is for Delhi | the user is told the default location is in use | high, not executed | NearbyHospitalsPage.Page.GetCurrentLocationAsWritten | NearbyHospitalsPage.Page.GetCurrentLocation |
| app/emergency-contacts/page.tsx:67-77 | a press start overwrites `longPressTimer.current` without clearing a timer still pending | press contact "a", then press "b" before release (a second finger), then release: the first timer cannot be cancelled any more and opens the delete confirmation for "a" 800 ms later | a new press cancels the pending one, so a release cancels every timer | medium, not executed | EmergencyContactsPage.PressStartAsWrittenLeaksTimer | EmergencyContactsPage.Page.LongPressStart |
