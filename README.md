# Clinic persistence layer, modelled in Dafny

This project models the in-browser persistence layer of a small clinic application. Patients book appointments, staff list and filter them, and staff exchange messages and chat with patients. Everything is kept as JSON arrays in the browser's key-value store. Each operation reads a whole collection, changes it and writes it back.

Three services form the core, and each becomes a Dafny class. The class holds one field per store key that the service owns. The three key sets are disjoint.

- `Data.DataService` models `dataService.ts`. It holds the keys `patients`, `appointments`, `messages`, `chatSessions` and `systemContent`.
  - Booking finds the first patient with the phone, or creates one. It then pushes a PENDING appointment at the slot for the current hour onto the newest-first listing and logs a confirmation message the same way.
  - Listing filters by day, by status and by case-insensitive name substring, then sorts newest first.
  - Chat messages are appended to the first session with the given id. An unknown id is an error.
  - System content is seeded when absent and upserted by key.
- `Storage.ClinicStorage` models `lib/storage.ts`. It holds `clinic_appointments`, `clinic_chat_messages` and `clinic_editable_texts`. It appends, deletes by id, seeds the editable texts, updates a text by id and reads a text by key.
- `Auth.AuthService` models `authService.ts`. It keeps the signed-in user in memory and in the `currentUser` slot of the store.

Supporting modules:
- `Types` holds the records of `types/index.ts`.
- `Seqs` holds the array operations the services use:
  - `find` and `findIndex` as `FindFirst`;
  - `filter` as `Filter`;
  - the stable `sort` on a numeric key as `SortDesc`, an insertion sort, with its lemmas.

Modelling choices:
- A key that is absent reads as an empty array, except for the two seeded collections (`systemContent` and `clinic_editable_texts`). For those, absence triggers seeding, so they are `Option` fields.
- Timestamps are integers (milliseconds). The clock is a parameter of each operation: `now`, plus `hour` for the slot rule and an ISO string for the editable texts.
- The day an appointment falls on is `now / 86400000`.
- `generateId` becomes a fresh-id supply `idOf: nat -> string`, fixed at construction, and a counter of ids issued. That ids never repeat is an assumption, not a theorem.
- Lower-casing is modelled on ASCII letters only.
- `getAppointments()` and `getMessages()` return freshly sorted arrays (newest first), and `createAppointment` and `sendMessage` push onto those arrays and write them back. So a booking or a sent message also rewrites the stored order: the new collection is the sorted old one with the new entry last.

The slot rule is modelled as written. From 18:00 on it gives "09:00", and the appointment date stays the booking day. The source's comment says "Next day", but the date is not advanced.

The confirmation text, the error message and the seeded content are the application's own Arabic strings.

## Model

| member | source | states |
|---|---|---|
| `Seqs.FindFirst` | Hello/workspace/shadcn-ui/src/services/dataService.ts:45 | the result is the index of the first element satisfying the predicate, or None exactly when no element does |
| `Seqs.Filter` | Hello/workspace/shadcn-ui/src/services/dataService.ts:97-108 | the result holds exactly the elements that satisfy the predicate, and all of them do |
| `Seqs.FilterAppend` | Hello/workspace/shadcn-ui/src/lib/storage.ts:16 | filtering distributes over concatenation, so survivors keep their order |
| `Seqs.SortDescSorted` | Hello/workspace/shadcn-ui/src/services/dataService.ts:111 | the sort's result has every key no smaller than the next one (largest first) |
| `Seqs.SortedDescPairwise` | Hello/workspace/shadcn-ui/src/services/dataService.ts:111 | in a result sorted largest first, every earlier entry's key is at least every later entry's |
| `Seqs.SortDescPermutes` | Hello/workspace/shadcn-ui/src/services/dataService.ts:111 | the sort's result is a permutation (same multiset) of its input |
| `Seqs.InsertSorted` | Hello/workspace/shadcn-ui/src/services/dataService.ts:111 | inserting into a sequence sorted largest first keeps it sorted, and the first entry is the new one or the old first |
| `Seqs.InsertPermutes` | Hello/workspace/shadcn-ui/src/services/dataService.ts:111 | inserting adds exactly the new element to the multiset |
| `Seqs.SortThenAppend` | Hello/workspace/shadcn-ui/src/services/dataService.ts:67-68 | pushing onto the sorted list gives one more entry, the old multiset plus the new element, with the new element last |
| `Data.DataService.GenerateId` | Hello/workspace/shadcn-ui/src/services/dataService.ts:16-18 | each call returns the next id of the supply and advances the counter by one |
| `Data.DataService.CreatePatient` | Hello/workspace/shadcn-ui/src/services/dataService.ts:21-36 | the new patient has the form data, the next id and now as both timestamps, and is appended at the end of the patients |
| `Data.DataService.GetPatients` | Hello/workspace/shadcn-ui/src/services/dataService.ts:38-41 | returns the stored patients |
| `Data.FindPatient` | Hello/workspace/shadcn-ui/src/services/dataService.ts:43-46 | None exactly when no patient has the phone; otherwise the first patient with that phone |
| `Data.DataService.GetPatientByPhone` | Hello/workspace/shadcn-ui/src/services/dataService.ts:43-46 | None exactly when no stored patient has the phone (exact string match); otherwise the first stored patient with it |
| `Data.BookedPatient` | Hello/workspace/shadcn-ui/src/services/dataService.ts:50-53 | the patient a booking uses has the booking's phone |
| `Data.PatientsAfterBooking` | Hello/workspace/shadcn-ui/src/services/dataService.ts:50-53 | the patients after the lookup-or-create step extend the old ones by at most one entry, and by exactly one exactly when no patient had the phone |
| `Data.BookingReusesPatient` | Hello/workspace/shadcn-ui/src/services/dataService.ts:49-53 | the booked patient has the phone and is what every later lookup finds; the phone's count becomes 1 if it was 0 and is otherwise unchanged; other phones' counts do not change |
| `Data.BookingAddsPatient` | Hello/workspace/shadcn-ui/src/services/dataService.ts:50-53 | with no patient of the phone, booking appends the new patient, which later lookups find, and raises that phone's count by one |
| `Data.TwoBookingsOnePatient` | Hello/workspace/shadcn-ui/src/services/dataService.ts:43-53 | a second booking with the same phone embeds the first booking's patient, adds no patient, and leaves the phone's count at max(1, initial count) |
| `Data.NextAvailableTime` | Hello/workspace/shadcn-ui/src/services/dataService.ts:114-124 | the slot is five characters "HH:00" whose two digits read hour+1 when 9 <= hour < 18 and 9 otherwise |
| `Data.SlotExamples` | Hello/workspace/shadcn-ui/src/services/dataService.ts:114-124 | hour 10 gives "11:00", hour 17 gives "18:00", hour 19 gives "09:00" |
| `Data.DataService.PatientFor` | Hello/workspace/shadcn-ui/src/services/dataService.ts:50-53 | the patient is the first one with the phone, or a new one with the next id, which is then appended; the id counter advances only in that case |
| `Data.DataService.StoreAppointment` | Hello/workspace/shadcn-ui/src/services/dataService.ts:67-69 | the stored appointments become the unfiltered listing (sorted by created_at, newest first) with the appointment pushed at the end: the old multiset plus it, with it last |
| `Data.DataService.BookFor` | Hello/workspace/shadcn-ui/src/services/dataService.ts:55-77 | for a found or created patient: the PENDING appointment with the next id, empty notes, date now and the slot time is pushed onto the sorted appointments; the confirmation to the patient's phone naming the appointment, with the id after, is pushed onto the sorted message log |
| `Data.DataService.CreateAppointment` | Hello/workspace/shadcn-ui/src/services/dataService.ts:49-80 | patients become the lookup-or-create result. The appointment is PENDING with empty notes, patient_id equal to the embedded patient's id, date now and time from the slot rule. Appointments become the newest-first listing with it pushed at the end (the old multiset plus it, it last). The message log becomes the newest-first log with the confirmation, addressed to the patient's phone and referencing the appointment, pushed at the end |
| `Data.BookTwice` | Hello/workspace/shadcn-ui/src/services/dataService.ts:49-80 | two bookings with one phone, from a store with no patient of that phone, leave exactly one such patient, embedded in both appointments; both appointments are added to the old multiset and the second is last |
| `Data.BookingScenarios` | Hello/workspace/shadcn-ui/src/services/dataService.ts:55-77 | a booking at hour 10 gets "11:00" and PENDING; one at hour 19 gets "09:00" on the booking day; the log grows by two, holds a confirmation of the first to the patient's phone, and ends with the confirmation of the second |
| `Data.Lower` | Hello/workspace/shadcn-ui/src/services/dataService.ts:106 | lower-casing keeps the length and lowers each character on its own |
| `Data.Includes` | Hello/workspace/shadcn-ui/src/services/dataService.ts:106 | the empty query is included in every name, and an included query is no longer than the name |
| `Data.IncludesIffOccurs` | Hello/workspace/shadcn-ui/src/services/dataService.ts:104-108 | the substring test holds exactly when the query occurs at some position of the name |
| `Data.ApplyFilters` | Hello/workspace/shadcn-ui/src/services/dataService.ts:94-109 | the filtered list is no longer than the stored one, and each of its entries is stored and passes every present filter |
| `Data.ApplyFiltersMatches` | Hello/workspace/shadcn-ui/src/services/dataService.ts:94-109 | the date, status and name filters applied in turn equal one filter by their conjunction; an absent or empty filter passes everything |
| `Data.DataService.GetAppointments` | Hello/workspace/shadcn-ui/src/services/dataService.ts:82-112 | an appointment is in the result exactly when it is stored and passes every present filter; the result is a permutation of the matching stored entries, sorted by created_at descending |
| `Data.DataService.SendMessage` | Hello/workspace/shadcn-ui/src/services/dataService.ts:127-147 | the message has sender "clinic", is unread, is addressed to the given phone with the given content, type and appointment id; the log becomes the newest-first listing with it pushed at the end: the old multiset plus it, with it last |
| `Data.DataService.GetMessages` | Hello/workspace/shadcn-ui/src/services/dataService.ts:149-157 | the result is a permutation of the stored messages, sorted by sent_at descending |
| `Data.DataService.CreateChatSession` | Hello/workspace/shadcn-ui/src/services/dataService.ts:160-174 | one active session with no messages and created_at equal to last_message_at is appended, whatever sessions already exist for the phone |
| `Data.DataService.GetChatSessions` | Hello/workspace/shadcn-ui/src/services/dataService.ts:176-189 | returns the stored sessions (date revival is the identity in this model) |
| `Data.SessionIndex` | Hello/workspace/shadcn-ui/src/services/dataService.ts:193 | the index of the first session with the id, or None exactly when no session has it |
| `Data.DataService.SendChatMessage` | Hello/workspace/shadcn-ui/src/services/dataService.ts:191-214 | an unknown id gives SessionNotFound and writes nothing. Otherwise only the first session with that id changes: a CHAT_MESSAGE to its phone is appended and last_message_at becomes now. Every other session is unchanged, and the recency invariant is kept when the clock has not gone back |
| `Data.AppendToSession` | Hello/workspace/shadcn-ui/src/services/dataService.ts:209-210 | the session keeps its id, phone, activity and creation time; its messages gain exactly the new one at the end, and last_message_at becomes now |
| `Data.AppendKeepsRecency` | Hello/workspace/shadcn-ui/src/services/dataService.ts:209-210 | appending a message stamped now keeps last_message_at no older than creation and every message, and adds exactly one message |
| `Data.DefaultContent` | Hello/workspace/shadcn-ui/src/services/dataService.ts:221-246 | the seed has exactly three TEXT entries, clinic_name, welcome_message and clinic_hours, attributed to "system", with distinct keys |
| `Data.DataService.GetSystemContent` | Hello/workspace/shadcn-ui/src/services/dataService.ts:217-256 | an absent collection is seeded with the defaults and persisted; a present one is returned unchanged; key uniqueness is kept |
| `Data.ContentIndex` | Hello/workspace/shadcn-ui/src/services/dataService.ts:260 | the index of the first entry with the key, or None exactly when no entry has it |
| `Data.Upsert` | Hello/workspace/shadcn-ui/src/services/dataService.ts:259-276 | the upsert grows the collection by one exactly when no entry has the key, and leaves every entry with another key where it was |
| `Data.UpsertEffect` | Hello/workspace/shadcn-ui/src/services/dataService.ts:258-280 | an existing key's entry keeps its position, id and type and takes the new value, attribution and time, with the count unchanged and the other entries untouched; a new key appends one TEXT entry |
| `Data.UpsertKeepsKeysUnique` | Hello/workspace/shadcn-ui/src/services/dataService.ts:258-280 | an upsert never introduces a second entry with the same key |
| `Data.UpsertTwice` | Hello/workspace/shadcn-ui/src/services/dataService.ts:258-280 | two upserts of one key leave keys unique and at least one entry with that key, and every such entry holds the second value and attribution |
| `Data.DataService.UpdateSystemContent` | Hello/workspace/shadcn-ui/src/services/dataService.ts:258-280 | the stored collection becomes the upsert of the (seeded if absent) content, and the entry returned is the first with the key, holding the new value, attribution and time; key uniqueness is kept |
| `Storage.ClinicStorage.GetAppointments` | Hello/workspace/shadcn-ui/src/lib/storage.ts:4-7 | returns the stored appointments |
| `Storage.ClinicStorage.SaveAppointment` | Hello/workspace/shadcn-ui/src/lib/storage.ts:9-13 | the appointment is appended at the end; earlier entries are unchanged |
| `Storage.WithoutId` | Hello/workspace/shadcn-ui/src/lib/storage.ts:16 | an entry survives deletion exactly when it was stored and its id differs |
| `Storage.DeleteKeepsOrder` | Hello/workspace/shadcn-ui/src/lib/storage.ts:16 | deletion distributes over concatenation, so the rest keep their order |
| `Storage.DeleteAbsentId` | Hello/workspace/shadcn-ui/src/lib/storage.ts:15-18 | deleting an id no entry has leaves the collection equal to before |
| `Storage.DeleteCount` | Hello/workspace/shadcn-ui/src/lib/storage.ts:15-18 | deletion shortens the collection by exactly the number of entries with that id |
| `Storage.ClinicStorage.DeleteAppointment` | Hello/workspace/shadcn-ui/src/lib/storage.ts:15-18 | the stored appointments become the old ones without the entries carrying the id |
| `Storage.ClinicStorage.GetChatMessages` | Hello/workspace/shadcn-ui/src/lib/storage.ts:21-24 | returns the stored chat messages |
| `Storage.ClinicStorage.SaveChatMessage` | Hello/workspace/shadcn-ui/src/lib/storage.ts:26-30 | the message is appended at the end of the chat messages |
| `Storage.DefaultTexts` | Hello/workspace/shadcn-ui/src/lib/storage.ts:37-56 | the seed has three texts, ids "1", "2" and "3", with keys clinic_name, clinic_description and working_hours |
| `Storage.ClinicStorage.GetEditableTexts` | Hello/workspace/shadcn-ui/src/lib/storage.ts:33-61 | seeds and persists the defaults only when the collection is absent; otherwise returns the stored list as it is |
| `Storage.TextIndex` | Hello/workspace/shadcn-ui/src/lib/storage.ts:65 | the index of the first text with the id, or None exactly when no text has it |
| `Storage.SetTextContent` | Hello/workspace/shadcn-ui/src/lib/storage.ts:63-71 | only the first text with the id changes, in content and time stamp, and the length stays the same; with no such text nothing changes |
| `Storage.ClinicStorage.UpdateEditableText` | Hello/workspace/shadcn-ui/src/lib/storage.ts:63-71 | the stored texts (seeded if absent) become the by-id update; an unknown id on a present collection writes nothing |
| `Storage.KeyIndex` | Hello/workspace/shadcn-ui/src/lib/storage.ts:75 | the index of the first text with the key, or None exactly when no text has it |
| `Storage.TextByKey` | Hello/workspace/shadcn-ui/src/lib/storage.ts:73-77 | the content of the first text with the key, or "" when none has it |
| `Storage.ClinicStorage.GetEditableTextByKey` | Hello/workspace/shadcn-ui/src/lib/storage.ts:73-77 | returns the first matching content or "", after seeding a missing collection |
| `Storage.UpdateThenRead` | Hello/workspace/shadcn-ui/src/lib/storage.ts:63-77 | after updating by id the first text with a key, reading that key returns the new content |
| `Storage.SeededUpdateThenRead` | Hello/workspace/shadcn-ui/src/lib/storage.ts:37-77 | on the seeded texts, updating id "1", "2" or "3" is what reading clinic_name, clinic_description or working_hours returns |
| `Auth.MockUsers` | Hello/workspace/shadcn-ui/src/services/authService.ts:8-25 | exactly two built-in users: admin-1 "admin" with role ADMIN and tech-1 "tech_support" with role TECH_SUPPORT, both active, stamped with the load time |
| `Auth.Account` | Hello/workspace/shadcn-ui/src/services/authService.ts:32 | the built-in account with the role, when one exists |
| `Auth.AuthService.Authenticate` | Hello/workspace/shadcn-ui/src/services/authService.ts:30-46 | with the expected password, the account (last login now) becomes the user in memory and in the store, with the token; otherwise the refusal, with nothing changed |
| `Auth.AuthService.AuthenticateAdmin` | Hello/workspace/shadcn-ui/src/services/authService.ts:30-47 | succeeds exactly when the password is the admin constant. On success the user is admin-1 with role ADMIN, held in memory and persisted, with token mock-admin-token. On failure the result is false with an error and nothing changes |
| `Auth.AuthService.AuthenticateTechSupport` | Hello/workspace/shadcn-ui/src/services/authService.ts:49-66 | succeeds exactly when the password is the tech-support constant. On success the user is tech-1 with role TECH_SUPPORT, with token mock-tech-token. On failure the result is false with an error and nothing changes |
| `Auth.AuthService.GetCurrentUser` | Hello/workspace/shadcn-ui/src/services/authService.ts:68-76 | returns the user in memory, else the stored one (which is then cached), else None |
| `Auth.AuthService.SessionUser` | Hello/workspace/shadcn-ui/src/services/authService.ts:68-76 | the in-memory user when there is one, else the stored one; None exactly when neither exists |
| `Auth.AuthService.Logout` | Hello/workspace/shadcn-ui/src/services/authService.ts:78-81 | both the in-memory user and the stored slot are cleared |
| `Auth.AuthService.IsAuthenticated` | Hello/workspace/shadcn-ui/src/services/authService.ts:83-85 | true exactly when a current user exists |
| `Auth.AuthService.HasRole` | Hello/workspace/shadcn-ui/src/services/authService.ts:87-90 | true exactly when a current user exists and has the role |
| `Auth.LogoutSignsOut` | Hello/workspace/shadcn-ui/src/services/authService.ts:78-85 | after logout nobody is authenticated |
| `Auth.AdminSignInGrantsRole` | Hello/workspace/shadcn-ui/src/services/authService.ts:30-90 | after an admin sign-in with the right password, hasRole(ADMIN) holds and hasRole(TECH_SUPPORT) does not |

## Left out

- The JSON round-trip through the store (`JSON.parse` and `JSON.stringify`, the revival of date strings) is taken as the identity. A corrupted stored value, which would make `JSON.parse` throw, is not modelled.
- Timezone handling in `toDateString` is not modelled: the day of a timestamp is its UTC day number.
- Unicode case folding in `toLowerCase` is not modelled: only ASCII letters are lowered.
- Where the source calls `new Date()` several times in one operation, the model reads the clock once (`now`).
- `Data.DataService.GenerateId`: time plus randomness becomes the supply `idOf`, and that its ids are distinct is not proved.
- The simulated SMS `console.log` in `sendMessage` and the notification service are not modelled; they are output only.
- `Seqs.SortDesc` is stable, like the source's sort, but its lemmas state only sortedness and permutation, not stability.
- `Types.User` keeps its timestamps as numbers. In the source, a user reloaded from the store has them as strings, because JSON does not revive dates.
- The React components, routing and presentation are not part of this model.
