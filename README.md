# A verified model of the instrument-rental client's own logic

The repository is a React client for an instrument-rental and rehearsal-room
booking service. Every booking rule lives in the backend it calls: date-range
overlap, room/time overlap, participant capacity and ownership. This model
covers the decision and data-structure code the client itself owns:

- **Registration** (`registration.dfy`). This is the register page's per-field
  validator, with its e-mail pattern restated as an explicit string predicate
  and proved equal to the regular expression. On top sit the submit handler
  that gates the register call on it, and the mapping of a 422 reply to field
  errors.
- **MeetingForm** (`meeting_form.dfy`). This is the calendar's "create meeting"
  modal:
  - the room list;
  - the `HH:MM` defaults;
  - the ACTIVE-reservation filter and the reservation preselected when the
    modal opens;
  - the ordered validation chain that ends in a `CreateMeetingPayload`;
  - a proof that JavaScript string `<` on zero-padded `HH:MM` strings is
    clock order.
- **InstrumentCache** (`instrument_cache.dfy`). These are the three updaters
  applied to the cached instrument list after a create, an update or a delete:
  append-unless-present, replace-by-id and remove-by-id.
- **InstrumentForm** (`instrument_form.dfy`). This is the multipart body the
  admin instrument calls send, modelled as an ordered list of entries in a
  `FormData` object that the service appends to. A reference reader shows that
  the fields read back by key.
- **AuthService** (`auth_service.dfy`). This is the session kept in
  `localStorage`, modelled as a `map<string, string>` with the token under
  `auth_token` and the JSON user under `auth_user`. It includes the readers and
  the storage effects of login, register, me and logout.
- **AuthContext** (`auth_context.dfy`). This is the auth provider as a class
  holding `user`, `isAuthenticated` and `isLoading`, with the transitions
  `setToken`, `logout`, `bootstrap`, `login` and `register`.
- **Reservations** (`reservations.dfy`). This is the "My reservations" page:
  - the status label;
  - the Return and Delete button gating;
  - the bookkeeping of the card whose return or delete is in flight.
- **MeetingDetails** (`meeting_details.dfy`). This is the meeting details modal:
  - the time display;
  - the participant count;
  - the status choices;
  - the Join/Quit/Edit/Delete/status gating;
  - the callback each enabled control fires.

Shared modules:

- `Wrappers` holds `Option`.
- `Types` holds the enumerations and records the client exchanges.
- `Text` holds the JavaScript string primitives the client relies on:
  - the whitespace set shared by `\s` and `trim`;
  - `trim`;
  - `slice(0, n)`;
  - the relational string comparison.

Each backend call is a parameter: the reply it settles with (`Reply<T>`, an
`Ok` value or an `ApiError`). JSON encoding and decoding of a user is a pair
of functions passed in (`UserCodec`), and the user's answer to a
`window.confirm` prompt is a boolean parameter.

Three facts about the client that the model keeps:

- Delete is offered to admins whatever the reservation's status
  (`src/pages/MyReservationsPage.tsx:149` and `:318`).
- The client enforces no participant capacity.
- The regular role's value is `'user'` (`src/types/index.ts:5`).

## Model

| member | source | states |
|---|---|---|
| Text.TrimStart | src/pages/RegisterPage.tsx:30 | the leading half of `trim`: drops the whitespace at the start of the string |
| Text.TrimEnd | src/pages/RegisterPage.tsx:30 | the trailing half of `trim`: drops the whitespace at the end of the string |
| Text.Trim | src/context/AuthContext.tsx:115-116 | JavaScript's `trim`, as the register validator and login apply it: whitespace removed at both ends |
| Text.TrimStartSpec | src/pages/RegisterPage.tsx:30 | what the start of `trim` removes is a whitespace prefix, and the rest does not start with whitespace |
| Text.TrimEndSpec | src/pages/RegisterPage.tsx:30 | what the end of `trim` removes is a whitespace suffix, and the rest does not end with whitespace |
| Text.TrimSpec | src/pages/RegisterPage.tsx:30-33 | `trim` returns a slice with only whitespace on both sides and none at its ends; it is empty iff the string is all whitespace |
| Text.TrimEmptyIff | src/pages/RegisterPage.tsx:30-33 | `!s.trim()` holds exactly for all-whitespace strings |
| Text.Prefix | src/components/CalendarMeetingModal.tsx:26 | `slice(0, n)` keeps the first `min(n, length)` characters |
| Text.StrLess | src/components/CalendarMeetingModal.tsx:92 | JavaScript's `<` on strings: a proper prefix, or smaller at the first differing character |
| Text.StrLessEq | src/components/CalendarMeetingModal.tsx:92 | JavaScript's `<=` on strings, as the negation of the reversed `<` |
| Registration.EmailPatternIff | src/pages/RegisterPage.tsx:35 | the explicit check accepts exactly the strings `^[^\s@]+@[^\s@]+\.[^\s@]+$` matches: no whitespace, exactly one '@' after a non-empty local part, and a '.' strictly inside the domain |
| Registration.IsValidEmail | src/pages/RegisterPage.tsx:35 | the e-mail test as an explicit string predicate: no whitespace, exactly one `@` and not as the first character, and a `.` in the domain that is neither its first nor its last character; `EmailPatternIff` proves it equal to the regular expression |
| Registration.FieldErrors.IsEmpty | src/pages/RegisterPage.tsx:87 | the validation result has no messages, so the key count is zero |
| Registration.MatchIsNotBlank | src/pages/RegisterPage.tsx:33-36 | a string the pattern matches is not blank, so the "required" branch never hides a match |
| Registration.Validate | src/pages/RegisterPage.tsx:27-49 | name error iff blank; "Email is required." iff blank; "Enter a valid email address." iff non-blank and not matching; no email error iff the pattern matches, so any whitespace in the untrimmed email is rejected; the password and confirmation messages in both directions, and no confirmation error iff it is non-empty and equals the password; no error at all iff the name is non-blank, the email matches, the password has at least 6 characters and the confirmation equals it |
| Registration.PasswordLengthBoundary | src/pages/RegisterPage.tsx:38-41 | 6 characters pass, 5 get "at least 6" |
| Registration.FirstMessage | src/pages/RegisterPage.tsx:103-106 | `errors[key]?.[0]` is present iff the key holds a non-empty list, and is then its first message |
| Registration.BackendFieldErrors | src/pages/RegisterPage.tsx:100-107 | after a 422 each field shows the first backend message for its key, or nothing |
| Registration.GlobalMessage | src/pages/RegisterPage.tsx:109-112 | the banner is the body's message, else the error's message, else the default text |
| Registration.IsFieldRejection | src/pages/RegisterPage.tsx:100 | a failure is shown per field iff it is a 422 carrying an `errors` record |
| Registration.RegisterForm.constructor | src/pages/RegisterPage.tsx:57-63 | the page's initial state |
| Registration.RegisterForm.Payload | src/pages/RegisterPage.tsx:78-83 | the request body: the four form fields as typed, untrimmed |
| Registration.RegisterForm.HandleSubmit | src/pages/RegisterPage.tsx:74-117 | register is called iff `validate` reports nothing; otherwise the field errors are exactly `validate`'s and loading is untouched; navigation iff the call succeeds; a 422 with errors gives the backend field errors, any other failure the banner; loading ends false |
| MeetingForm.RoomsAreEveryRoomOnce | src/components/CalendarMeetingModal.tsx:22 | the room choices are each of the four rooms exactly once |
| MeetingForm.HhmmOrDefault | src/components/CalendarMeetingModal.tsx:24-27 | the fallback for null or empty input, else the first at most 5 characters |
| MeetingForm.ActiveReservations | src/components/CalendarMeetingModal.tsx:43-46 | exactly the ACTIVE reservations are kept |
| MeetingForm.ActiveReservationsAppend | src/components/CalendarMeetingModal.tsx:43-46 | the filter distributes over concatenation, so the original order is kept |
| MeetingForm.PreselectedReservation | src/components/CalendarMeetingModal.tsx:64 | 0 when no reservation is ACTIVE |
| MeetingForm.PreselectIsFirstActive | src/components/CalendarMeetingModal.tsx:63-65 | the preselected id is that of the first ACTIVE reservation |
| MeetingForm.CreateDisabled | src/components/CalendarMeetingModal.tsx:353 | Create is disabled while submitting or when no reservation is active |
| MeetingForm.CreateDisabledIff | src/components/CalendarMeetingModal.tsx:353 | Create is disabled iff submitting or no reservation is ACTIVE |
| MeetingForm.MinuteOfDay | src/components/CalendarMeetingModal.tsx:92 | an `HH:MM` time names a minute of the day below 1440 |
| MeetingForm.StrLessOfClockShape | src/components/CalendarMeetingModal.tsx:92 | on two `HH:MM`-shaped strings, `<` compares the four digits in turn |
| MeetingForm.ClockStringOrder | src/components/CalendarMeetingModal.tsx:92-95 | for zero-padded `HH:MM` strings, string `<` is minute-of-day `<` |
| MeetingForm.EndNotAfterStartIff | src/components/CalendarMeetingModal.tsx:92-95 | the guard `end <= start` rejects exactly the ends that are not later on the clock |
| MeetingForm.FirstFailedCheck | src/components/CalendarMeetingModal.tsx:80-95 | the checks run in order (reservation, day, times, time order), the first failure gives its message, and none fails iff every field is set and start `<` end |
| MeetingForm.AcceptedEndsAfterStart | src/components/CalendarMeetingModal.tsx:80-95 | for clock times, a submission is accepted iff a reservation and a day are chosen and the end is strictly after the start |
| MeetingForm.MeetingFormState.constructor | src/components/CalendarMeetingModal.tsx:48-53 | the modal's initial state: no reservation, SPRINGSTEEN, no day, 18:00 to 19:00 |
| MeetingForm.MeetingFormState.Open | src/components/CalendarMeetingModal.tsx:55-67 | closed: nothing changes; open: error cleared, day, start and end from the defaults, the first ACTIVE reservation preselected, room reset to SPRINGSTEEN |
| MeetingForm.MeetingFormState.Submit | src/components/CalendarMeetingModal.tsx:76-106 | the message is that of the first failed check, or cleared; the payload is produced iff no check fails and then carries the current reservation, room, day, start and end |
| InstrumentCache.AppendUnlessPresent | src/hooks/useInstruments.ts:49-52 | the id is present afterwards; an already-present id leaves the list unchanged; otherwise the item is appended with the prefix kept |
| InstrumentCache.CachedList | src/hooks/useInstruments.ts:48 | an updater starts from the cached list, or from the empty list when nothing usable is cached |
| InstrumentCache.ReplaceById | src/hooks/useInstruments.ts:79 | same length; each item with the updated id is replaced and every other one kept in place |
| InstrumentCache.RemoveById | src/hooks/useInstruments.ts:97 | an item survives iff it was there and its id differs |
| InstrumentCache.OnCreated | src/hooks/useInstruments.ts:47-53 | a non-array cache value counts as the empty list, so the result is the single created item |
| InstrumentCache.OnUpdated | src/hooks/useInstruments.ts:77-80 | a non-array cache value counts as the empty list |
| InstrumentCache.OnDeleted | src/hooks/useInstruments.ts:95-98 | a non-array cache value counts as the empty list |
| InstrumentCache.CreateIdempotent | src/hooks/useInstruments.ts:49-52 | creating twice is creating once |
| InstrumentCache.ReplaceKeepsIds | src/hooks/useInstruments.ts:79 | update keeps every id where it was |
| InstrumentCache.UpdateIdempotent | src/hooks/useInstruments.ts:79 | updating twice is updating once |
| InstrumentCache.UpdateAbsentIsIdentity | src/hooks/useInstruments.ts:79 | updating an absent id changes nothing |
| InstrumentCache.RemoveLeavesNoId | src/hooks/useInstruments.ts:97 | after delete no item has the deleted id |
| InstrumentCache.RemoveAppend | src/hooks/useInstruments.ts:97 | delete distributes over concatenation, so survivors keep their relative order |
| InstrumentCache.RemoveAbsentIsIdentity | src/hooks/useInstruments.ts:97 | deleting an absent id leaves the list unchanged |
| InstrumentCache.CreateThenDelete | src/hooks/useInstruments.ts:49-52 | deleting a freshly created item's id restores the list |
| InstrumentForm.FormData.constructor | src/api/instruments.service.ts:52 | a new form has no entries |
| InstrumentForm.FormData.Append | src/api/instruments.service.ts:53-56 | `append` adds the entry last and keeps the others |
| InstrumentForm.InstrumentFieldsShape | src/api/instruments.service.ts:48-63 | name, description, type and status first, in order, with the payload's values; an image entry, fifth and last, iff a file is given; four entries without one |
| InstrumentForm.InstrumentFields | src/api/instruments.service.ts:52-60 | the appended entries: name, description, type, status, then the image when a file is given |
| InstrumentForm.CreateFields | src/api/instruments.service.ts:65-69 | the create form is the built form with its required image |
| InstrumentForm.UpdateFields | src/api/instruments.service.ts:85-89 | the update form is the built form followed by `_method=PUT` |
| InstrumentForm.UpdateEndsWithMethodOverride | src/api/instruments.service.ts:80-89 | the update form is the built form followed by `_method=PUT`, which is the only `_method` entry and comes after any image |
| InstrumentForm.CreateHasImageNoOverride | src/api/instruments.service.ts:65-69 | the create form always has the image and never `_method` |
| InstrumentForm.LeadingLookups | src/api/instruments.service.ts:53-56 | looking up name, description, type or status finds the payload's value in the first four entries; `image` is looked up in what follows |
| InstrumentForm.ReadBackFields | src/api/instruments.service.ts:53-56 | the four leading fields read back by key as the payload, whatever follows them |
| InstrumentForm.InstrumentFieldsReadBack | src/api/instruments.service.ts:48-63 | reading the built form back by key gives the payload and the file |
| InstrumentForm.UpdateFieldsReadBack | src/api/instruments.service.ts:80-89 | the override does not disturb reading the update form back |
| InstrumentForm.BuildInstrumentFormData | src/api/instruments.service.ts:48-63 | a fresh form whose entries are the built field sequence |
| InstrumentForm.CreateInstrumentForm | src/api/instruments.service.ts:65-69 | the create body is the built form with the file |
| InstrumentForm.UpdateInstrumentForm | src/api/instruments.service.ts:80-89 | the update body is the built form plus `_method=PUT` |
| AuthService.Storage.GetItem | src/api/auth.service.ts:88-90 | `getItem` finds a value iff the key is stored |
| AuthService.Storage.SetItem | src/api/auth.service.ts:22-23 | `setItem` writes one key |
| AuthService.Storage.RemoveItem | src/api/auth.service.ts:31-32 | `removeItem` removes one key |
| AuthService.TokenIn | src/api/auth.service.ts:88-90 | the token is present iff `auth_token` is stored, and is its value |
| AuthService.HasToken | src/api/auth.service.ts:104-106 | a token is stored and it is not the empty string |
| AuthService.UserIn | src/api/auth.service.ts:93-100 | no user when `auth_user` is missing or empty; otherwise the decoded value, which is `None` when decoding fails |
| AuthService.GetToken | src/api/auth.service.ts:88-90 | `getToken` reads the stored token |
| AuthService.GetStoredUser | src/api/auth.service.ts:93-100 | `getStoredUser` reads the stored user |
| AuthService.IsAuthenticated | src/api/auth.service.ts:104-106 | true iff a non-empty `auth_token` is stored |
| AuthService.PersistSession | src/api/auth.service.ts:21-24 | both keys are written and nothing else |
| AuthService.PersistUser | src/api/auth.service.ts:26-28 | only `auth_user` is written |
| AuthService.ClearSession | src/api/auth.service.ts:30-33 | both keys are removed and nothing else |
| AuthService.Login | src/api/auth.service.ts:43-47 | on success the returned token and user are stored; on failure storage is unchanged |
| AuthService.Register | src/api/auth.service.ts:53-57 | the same storage effect as login |
| AuthService.Me | src/api/auth.service.ts:64-68 | success refreshes only the cached user |
| AuthService.Logout | src/api/auth.service.ts:74-81 | both keys are removed whether or not the call succeeds; a failure propagates |
| AuthService.SessionReadsBack | src/api/auth.service.ts:21-24 | after `persistSession` the token and the user read back, authentication holds iff the token is non-empty, and other keys are untouched |
| AuthService.PersistUserKeepsToken | src/api/auth.service.ts:26-28 | `persistUser` leaves the token and authentication as they were, and the user reads back |
| AuthService.ClearedIsSignedOut | src/api/auth.service.ts:30-33 | after `clearSession` no token and no user are found and every other key is as it was |
| AuthContext.AuthProvider.constructor | src/context/AuthContext.tsx:41-43 | no user, not authenticated, loading |
| AuthContext.AuthProvider.SetToken | src/context/AuthContext.tsx:46-49 | a non-empty token is stored; null or empty removes the key |
| AuthContext.AuthProvider.Logout | src/context/AuthContext.tsx:51-60 | user null, not authenticated, token and user removed, also when the API call fails |
| AuthContext.AuthProvider.Bootstrap | src/context/AuthContext.tsx:62-98 | a token with a cached user authenticates as that user without `me`; a token alone calls `me`, which authenticates on success and signs out and drops the token on failure; no token ends signed out; loading is false on every path |
| AuthContext.AuthProvider.Login | src/context/AuthContext.tsx:113-127 | blank trimmed credentials fail with no call and no change; otherwise the trimmed credentials are sent, and success ends with the user, authenticated, and the session stored |
| AuthContext.AuthProvider.Register | src/context/AuthContext.tsx:129-139 | success ends with the user, authenticated, and the session stored; failure changes nothing |
| AuthContext.SignedInReadsBack | src/context/AuthContext.tsx:119-124 | after a successful login the user reads back, and a token is found iff the backend returned a non-empty one |
| AuthContext.SignedIn | src/context/AuthContext.tsx:119-124 | the stored map after a successful login or register: token and user persisted, then the token removed again when it is empty |
| Reservations.StatusLabel | src/pages/MyReservationsPage.tsx:27-36 | ACTIVE shows "Active", FINISHED "Returned", any other value itself |
| Reservations.StatusLabelsOfKnownStatuses | src/pages/MyReservationsPage.tsx:27-36 | both known statuses get their label and never the raw value |
| Reservations.CanReturn | src/pages/MyReservationsPage.tsx:55 | a reservation can be returned iff it is ACTIVE |
| Reservations.CanDelete | src/pages/MyReservationsPage.tsx:179 | Delete is allowed iff the viewer is signed in with the admin role |
| Reservations.RenderCard | src/pages/MyReservationsPage.tsx:55-168 | Return is disabled iff not ACTIVE or the card is busy; Delete is shown iff allowed and disabled iff the card is busy |
| Reservations.ReservationsPage.constructor | src/pages/MyReservationsPage.tsx:187-188 | no card returning or deleting |
| Reservations.ReservationsPage.IsReturning | src/pages/MyReservationsPage.tsx:316 | a card is returning iff its id is the marked one and the return mutation is pending |
| Reservations.ReservationsPage.IsDeleting | src/pages/MyReservationsPage.tsx:317 | a card is deleting iff its id is the marked one and the delete mutation is pending |
| Reservations.ReservationsPage.Card | src/pages/MyReservationsPage.tsx:310-319 | the card's flags come from the page: Delete only for admins, Return and Delete disabled while that card's own id is returning or deleting |
| Reservations.ReservationsPage.OnReturn | src/pages/MyReservationsPage.tsx:190-198 | declined: nothing changes and no mutation; confirmed: that card alone is returning, its buttons are disabled with the "Returning…" label, and the mutation starts for its id |
| Reservations.ReservationsPage.OnReturnSettled | src/pages/MyReservationsPage.tsx:196 | once settled no card is returning and every card shows "Return" |
| Reservations.ReservationsPage.OnDelete | src/pages/MyReservationsPage.tsx:200-208 | declined: nothing changes; confirmed: that card alone is deleting, its buttons are disabled with the "Deleting…" label |
| Reservations.ReservationsPage.OnDeleteSettled | src/pages/MyReservationsPage.tsx:206 | once settled no card is deleting and every card shows "Delete" |
| MeetingDetails.Hhmm | src/components/MeetingsDetailsModal.tsx:32-34 | the first at most 5 characters, or "" for a missing time |
| MeetingDetails.StatusesAreEveryStatusOnce | src/components/MeetingsDetailsModal.tsx:36 | the selector offers ACTIVE, FINISHED and CANCELLED, each once |
| MeetingDetails.ParticipantCount | src/components/MeetingsDetailsModal.tsx:210 | the length of `users` when present, else `users_count`, else 0 |
| MeetingDetails.ParticipantRows | src/components/MeetingsDetailsModal.tsx:215 | the rows listed are the meeting's users, or none |
| MeetingDetails.ActionsFor | src/components/MeetingsDetailsModal.tsx:223-327 | exactly one of Join or Quit, Join iff not a member; Edit always disabled; Delete and the selector iff admin; every other shown control is disabled iff busy |
| MeetingDetails.Dispatch | src/components/MeetingsDetailsModal.tsx:227-309 | an enabled control fires its callback with this meeting's id; the selector fires `onStatus` with the chosen status only when it differs from the meeting's current one |
| MeetingDetails.DispatchGating | src/components/MeetingsDetailsModal.tsx:223-327 | nothing fires while busy; Edit never fires; re-picking the current status fires nothing; only admins delete or change status; members only quit, others only join |

## Left out

- Booking rules (overlap, capacity, ownership, state machines): the client does not implement them; the backend does.
- HTTP transport (the axios instance, interceptors and every request): each call is reduced to the reply it settles with.
- React Query mechanics (`invalidateQueries`, stale times and the meetings and reservations hooks): only the three list updaters are modelled.
- The reserve-instrument modal's date helpers: they read the system clock and rely on `Date` rollover.
- Rendering, routing, styling, portals, keyboard listeners and the `auth:unauthenticated` listener that triggers logout: these are presentation or browser wiring.
- `window.confirm`: its answer is a parameter of `OnReturn`/`OnDelete`.
- `JSON.stringify`/`JSON.parse` of a user: these are the functions of a `UserCodec`; the read-back lemmas require that a user's encoding is non-empty and decodes back to that user.
- React's batching of state updates and the asynchrony of `await`: each handler is one atomic step, with the reply given up front.
- The mutation callbacks: `onSettled` is the separate `OnReturnSettled`/`OnDeleteSettled` step, and the pending flags stand for `isPending`.
- Registration.Validate: password length counts Unicode code points, while JavaScript's `length` counts UTF-16 code units; the two differ for characters outside the Basic Multilingual Plane.
- MeetingForm.HhmmOrDefault: `slice` counts code points here, UTF-16 code units in JavaScript (the same for the ASCII times a time input produces).
- MeetingDetails.Hhmm: the same code-point counting as `HhmmOrDefault`.
- InstrumentCache.AppendUnlessPresent: the cached list is a list of instruments; `null` entries, which the source's `x?.id` tolerates, are not modelled.
- MeetingDetails.Dispatch: a disabled control firing nothing, and a select firing no change when its current option is picked again, are browser behaviour the source relies on.
- Text.StrLess: characters compare as Unicode code points, while JavaScript's `<` compares UTF-16 code units; the two orders differ when a character above U+FFFF meets one in U+E000–U+FFFF, so `MeetingForm.FirstFailedCheck` agrees with the source on strings without such pairs, which includes every `HH:MM` time.
- AuthService.UserIn: `UserCodec.parse` yields a user or nothing, while `getStoredUser` returns whatever `JSON.parse` gives; a stored JSON value that is not a user (such as `1` or `[]`) is a truthy cached user in the source, so bootstrap signs in with it without calling `me`, whereas the model either decodes a user or calls `me`.
- The registration page's redirect when already authenticated, and the login page: presentation and routing.
