# trekking-medical, modelled in Dafny

trekking-medical is a web app for the medical team of a trekking event. Staff scan a
participant's NFC tag to open an intake form for a medical encounter (an
*atendimento*: description, severity, GPS position, photos). A dashboard
and a map show the encounters of the selected event. Admin screens manage
participants, staff (*médicos*), events and users.

This project models the rules that sit inside those screens. Every call to the
hosted backend (queries, inserts, updates, storage, sign-up) becomes a parameter
holding its answer. The model then proves what the app does with those answers.

- `wrappers.dfy`: `Option`.
- `seqs.dfy`: `filter`, `findIndex` and `find` on sequences, with their
  multiset, subsequence and first-match properties.
- `text.dfy`: the JavaScript string semantics the screens rely on:
  - truthiness and `|| null` / `|| ''`;
  - `trim` with the ECMAScript white-space set;
  - `toLowerCase`, `includes` and `slice(0, n)`;
  - `Number#toString` and `parseInt`, with the round trip between them.
- `types.dfy`: the schema's enumerations and records, and the severity display
  table.
- `event_context.dfy`: the event context, as the class `EventProvider`. It covers:
  - which events a user may see;
  - automatic selection;
  - the membership and permission codes of a selection;
  - the permission check.
- `dashboard.dfy`: the severity filter, the per-severity counters and the
  "Graves / Críticos" stat.
- `intake.dfy`: the intake screen, as the class `IntakePage`. It covers:
  - tag normalisation and fetch gating;
  - the parallel photo and preview lists;
  - the submit guard and the insert payload;
  - the best-effort photo upload loop;
  - the reset.
- `participantes.dfy`, `medicos.dfy`, `eventos.dfy`, `usuarios.dfy`: the four admin
  screens. Each has a page class holding the form and list state, plus pure
  functions for payload shaping, search, the staff-creation sequence, status
  transitions and the self-guarded user toggles.
- `participant_profile.dfy`: the participant card. It covers:
  - the body-mass index, its colour band and its scale;
  - the health-indicator pointer;
  - which sections of the card appear.
- `marker_map.dfy`: the map marker parameters, the initial centre, the popup's
  level bar and the highlight for new markers.

Numbers that the app holds as JavaScript floats (BMI, weight, height, coordinates,
indicator levels) are exact `real`s here.

## Model

| member | source | states |
|---|---|---|
| Types.EventoStatusFromKey | src/types/database.ts:5 | a status read back from a string has that string as its key |
| Types.EventoStatusKeyRoundTrip | src/types/database.ts:5 | every event status is read back from its own key, so the four stored keys are distinct |
| Types.GravidadeFromKey | src/types/database.ts:96 | a severity read back from a string has that string as its key; any other string reads as none |
| Types.GravidadeKeyRoundTrip | src/types/database.ts:96 | each of the four severities is read back from its key |
| Types.GravidadeKeyInjective | src/types/database.ts:96 | two severities with the same stored key are equal |
| Types.Rank | src/types/database.ts:129-132 | the position of a severity in the display table's key order (leve, moderado, grave, critico) |
| Types.AllGravidadesEnumerates | src/types/database.ts:96 | the key order lists all four severities, each exactly once |
| Types.GravidadeConfigInjective | src/types/database.ts:128-133 | the table has an entry for every severity; labels, colours and icons are pairwise distinct |
| Types.ConfigForKey | src/types/database.ts:128-133 | the lookup by stored key gives a severity's entry exactly when the key is a severity key |
| Seqs.Filter | src/app/dashboard/page.tsx:85 | `Array.filter`: no longer than its input, and every kept element satisfies the predicate |
| Seqs.FilterSpec | src/app/dashboard/page.tsx:85 | the filtered list keeps each satisfying element as often as the input has it and drops every other; it is a subsequence of the input |
| Seqs.FilterContains | src/contexts/EventContext.tsx:66-83 | an element is in the filtered list exactly when it is in the input and satisfies the predicate |
| Seqs.FilterCongruent | src/app/dashboard/page.tsx:87 | two predicates that agree on every element filter a list the same way |
| Seqs.FilterAll | src/app/dashboard/page.tsx:83-85 | a predicate every element satisfies keeps the list unchanged |
| Seqs.FilterNone | src/contexts/EventContext.tsx:133-139 | a predicate no element satisfies leaves nothing |
| Seqs.FilterSingle | src/contexts/EventContext.tsx:133-139 | when exactly one element satisfies the predicate, the filtered list is that element alone |
| Seqs.FilterTwo | src/contexts/EventContext.tsx:133-139 | two satisfying positions leave at least two elements |
| Seqs.FindIndex | src/components/ParticipantProfile.tsx:99 | `findIndex`: the first index whose element satisfies the predicate, or -1 exactly when none does |
| Seqs.Find | src/contexts/EventContext.tsx:95 | `find`: the first satisfying element, or none exactly when no element satisfies it |
| Text.NullIfEmptyRoundTrip | src/app/admin/participantes/page.tsx:61-91 | a text field saved as null when empty and read back as the empty string when null is unchanged |
| Text.EmptyIfNullRoundTrip | src/app/admin/participantes/page.tsx:61-91 | saving a column read as text gives the column back when it is non-empty, and null otherwise |
| Text.TrimStart | src/app/a/page.tsx:42 | removes exactly a leading run of white space; the result does not start with white space |
| Text.TrimEnd | src/app/a/page.tsx:42 | removes exactly a trailing run of white space; the result does not end with white space |
| Text.TrimShape | src/app/a/page.tsx:42 | `trim` returns the slice of its input between a leading and a trailing run of white space, with no white space at either end |
| Text.TrimIdempotent | src/app/a/page.tsx:42 | trimming twice is trimming once |
| Text.LowerChar | src/app/admin/participantes/page.tsx:120-121 | lower-cases an upper-case letter and leaves every other character as it is |
| Text.ToLower | src/app/admin/participantes/page.tsx:120-121 | lower-cases character by character and keeps the length |
| Text.ToLowerIdempotent | src/app/admin/participantes/page.tsx:120-121 | lower-casing twice is lower-casing once |
| Text.IncludesAt | src/app/admin/participantes/page.tsx:120-121 | `includes` holds exactly when the query occurs at some position |
| Text.IncludesEmpty | src/app/admin/participantes/page.tsx:117-123 | every string includes the empty string |
| Text.Prefix | src/app/super-admin/eventos/page.tsx:67-68 | `slice(0, n)` is the input's prefix of length min(n, length) |
| Text.PrefixIdempotent | src/app/super-admin/eventos/page.tsx:67-68 | cutting to n characters twice is cutting once |
| Text.NatToString | src/app/admin/participantes/page.tsx:62 | the decimal form of a number is non-empty and all digits |
| Text.DigitPrefix | src/app/admin/participantes/page.tsx:84 | the longest leading run of digits `parseInt` reads |
| Text.ParseIntToString | src/app/admin/participantes/page.tsx:62-84 | `parseInt` of the decimal form of any integer, negative ones included, gives that integer back (integers unbounded; JavaScript number limits under Left out) |
| EventContext.EventsOfInOrder | src/contexts/EventContext.tsx:76-82 | the listed events are, position by position, the joined events of the memberships that have one, in the memberships' order |
| EventContext.EventsOfMembers | src/contexts/EventContext.tsx:76-82 | an event is listed exactly when some membership row joins it |
| EventContext.VisibleEventsOfMember | src/contexts/EventContext.tsx:66-83 | for a user who is not a super-admin, an event is visible exactly when one of that user's active memberships joins it |
| EventContext.AutoSelectSpec | src/contexts/EventContext.tsx:89-97 | zero events selects nothing and one event selects it; with several, an event is selected exactly when the public id is set and some event has it, and that event is the first one with the id |
| EventContext.MembershipFor | src/contexts/EventContext.tsx:133-141 | `.single()` on the membership query: when there is a membership, it is an active row of this user for this event |
| EventContext.MembershipForSpec | src/contexts/EventContext.tsx:133-141 | `.single()` finds the row when exactly one active row of this user for this event exists, and nothing when there is none or more than one |
| EventContext.CodesOf | src/contexts/EventContext.tsx:143-153 | the permission codes of the links, never more codes than links |
| EventContext.CodesOfMembers | src/contexts/EventContext.tsx:143-153 | a code is listed exactly when it is non-empty and some link carries it |
| EventContext.AllCodes | src/contexts/EventContext.tsx:117-120 | a super-admin gets the code of every permission row, in order |
| EventContext.ResolveSpec | src/contexts/EventContext.tsx:110-157 | a super-admin gets a synthetic membership (active, admin role, this event, this user) and every code; anyone else gets their own active membership row of the event, or no membership and no permissions |
| EventContext.PermissionGate | src/contexts/EventContext.tsx:141-168 | after a selection, a super-admin passes every check; anyone else passes exactly for the non-empty codes linked to their membership of the event |
| EventContext.ResolveOwnMembership | src/contexts/EventContext.tsx:133-153 | for a user who is not a super-admin with exactly one active row for the event, that row becomes the membership and its permissions are the codes of the links of that row (none when the link query failed) |
| EventContext.ResolveNoMembership | src/contexts/EventContext.tsx:133-156 | with no active row, or more than one, for this user and event, there is no membership and no permission |
| EventContext.EventProvider.constructor | src/contexts/EventContext.tsx:28-33 | the provider's initial state |
| EventContext.EventProvider.RestorePublicEvent | src/contexts/EventContext.tsx:36-39 | a truthy saved public event id becomes the public selection; nothing else changes |
| EventContext.EventProvider.SelectPublicEvent | src/contexts/EventContext.tsx:41-44 | sets the public event id and nothing else |
| EventContext.EventProvider.ClearPublicEvent | src/contexts/EventContext.tsx:46-49 | clears the public event id and nothing else |
| EventContext.EventProvider.SelectEvento | src/contexts/EventContext.tsx:110-168 | selects the event; for a signed-in user, membership and permissions become the resolved selection, after which `hasPermission` passes every code for a super-admin and, for anyone else, exactly the non-empty codes linked to the new membership |
| EventContext.EventProvider.OnUserChange | src/contexts/EventContext.tsx:52-107 | with no user everything is cleared; otherwise the visible events are loaded and one is auto-selected only if none was selected; loading ends either way |
| EventContext.EventProvider.SignedOut | src/contexts/EventContext.tsx:54-60 | events, selection, membership and permissions are cleared and loading ends |
| EventContext.EventProvider.LoadForUser | src/contexts/EventContext.tsx:66-103 | the events are the visible ones; an automatic choice is applied, with its membership and permissions, only when nothing was selected; loading ends after that |
| EventContext.EventProvider.ClearEvento | src/contexts/EventContext.tsx:159-163 | clears selection, membership and permissions, and keeps the events and the public id |
| Dashboard.FilterTodosIsIdentity | src/app/dashboard/page.tsx:83-84 | the `todos` filter shows the list unchanged |
| Dashboard.FilterBySeverityExact | src/app/dashboard/page.tsx:85 | filtering by a severity keeps exactly the encounters of that severity, each as often as in the list, in the list's order |
| Dashboard.CountMatchesFilter | src/app/dashboard/page.tsx:87 | a severity's counter is the length of the list its filter button shows |
| Dashboard.UnknownFilterShowsNothing | src/app/dashboard/page.tsx:85 | a filter value that is neither `todos` nor a severity key shows nothing |
| Dashboard.CountsSumToTotal | src/app/dashboard/page.tsx:87-139 | the four counters add up to the total |
| Dashboard.GravesCriticosBounded | src/app/dashboard/page.tsx:166 | the "Graves / Críticos" stat never exceeds the total |
| Dashboard.CountOrZero | src/app/dashboard/page.tsx:59-60 | a missing backend count shows as 0, and a present one as itself |
| Dashboard.PhotoCount | src/app/dashboard/page.tsx:249 | an encounter's photo count is 0 without photos, and the number of photos otherwise |
| Dashboard.StatusColorSpec | src/app/dashboard/page.tsx:243-244 | amber is the colour of in-progress encounters only, green of finished ones only, blue of referred ones only |
| Intake.TrimmedIsNormal | src/app/a/page.tsx:42 | a non-empty trimmed string has no white space at either end and trims to itself |
| Intake.TagIdNormalised | src/app/a/page.tsx:42 | the tag id is absent exactly when the parameter is missing or blank; otherwise it is non-empty and already normalised |
| Intake.FetchOnlyWhenReady | src/app/a/page.tsx:71-90 | the participant lookup runs exactly when there is a tag, auth has settled, and both user and profile are present |
| Intake.CompressAll | src/app/a/page.tsx:149-165 | one kept file per picked file (the compressed one, or the original when compression failed) and a preview of each kept file, in order |
| Intake.WithoutIndexSpec | src/app/a/page.tsx:171-176 | removing by index drops exactly that element and keeps the rest in order; an index out of range removes nothing |
| Intake.InsertPayloadSpec | src/app/a/page.tsx:189-203 | the inserted encounter is in progress and belongs to the participant, the participant's event and the signed-in user; it sits at the acquired position, and its notes are null exactly when empty |
| Intake.LinkRecordsAppend | src/app/a/page.tsx:210-227 | one more upload adds its photo row exactly when the upload succeeded |
| Intake.LinkRecordsSpec | src/app/a/page.tsx:210-227 | exactly one photo row per successful upload; every row belongs to this encounter and carries a URL an upload returned |
| Intake.LinkUploads | src/app/a/page.tsx:210-227 | the upload loop links exactly the successful uploads, in order, and carries on past failures |
| Intake.IntakePage.constructor | src/app/a/page.tsx:44-65 | the screen's initial state, with the photo and preview lists in step |
| Intake.IntakePage.LoadParticipant | src/app/a/page.tsx:68-125 | no tag gives "not found"; while auth loads nothing changes; without a user or profile loading stops; otherwise a failed or empty lookup gives "not found" and a found row is shown |
| Intake.IntakePage.HandlePhotoChange | src/app/a/page.tsx:145-169 | appends the kept files and as many previews, keeping the lists in step; picking nothing changes nothing |
| Intake.IntakePage.RemovePhoto | src/app/a/page.tsx:171-177 | removes the same index from both lists, keeping them in step |
| Intake.EnabledSubmitHasPosition | src/app/a/page.tsx:471 | an enabled submit button means no save is running and a position is known, so the submit guard then fails only for a missing participant or user; without a position the button is disabled and the guard fails |
| Intake.IntakePage.HandleSubmit | src/app/a/page.tsx:180-235 | without a participant, a user and a position nothing is sent; a failed insert shows its message (or the default text) and uploads nothing; a successful one links exactly the successful uploads; submitting ends false |
| Intake.IntakePage.NewEncounter | src/app/a/page.tsx:305-312 | back to an empty form with no photos, for the same participant |
| Participantes.Resaved | src/app/admin/participantes/page.tsx:61-91 | an optional column comes back from edit-and-save non-null exactly when it was non-empty, and then unchanged |
| Participantes.EditThenSaveRoundTrip | src/app/admin/participantes/page.tsx:57-92 | editing and saving without changes writes back name, tag and age (as an unbounded integer) unchanged, every non-empty optional field unchanged, and null for the absent or empty ones |
| Participantes.IntToStringNonEmpty | src/app/admin/participantes/page.tsx:62 | a stored age never edits to an empty field |
| Participantes.SaveThenEditRoundTrip | src/app/admin/participantes/page.tsx:57-92 | saving a form whose age is empty or a plain integer (of any length, as integers are unbounded here), then editing the saved row, gives the form back |
| Participantes.SaveRequestFor | src/app/admin/participantes/page.tsx:94-99 | a truthy editing id leads to an update by that id, anything else to an insert, with the same payload |
| Participantes.SearchSpec | src/app/admin/participantes/page.tsx:117-123 | an empty query shows everybody; any query shows exactly the matching participants (lower-cased name or tag contains the lower-cased query), in order |
| Participantes.SubsequenceRefl | src/app/admin/participantes/page.tsx:117-123 | the unfiltered list is a subsequence of itself |
| Participantes.SearchIgnoresCase | src/app/admin/participantes/page.tsx:120-121 | a query and its lower-cased form show the same list |
| Participantes.ParticipantesPage.constructor | src/app/admin/participantes/page.tsx:14-27 | the screen's initial state |
| Participantes.ParticipantesPage.FetchParticipantes | src/app/admin/participantes/page.tsx:38-45 | the list is replaced only when the query returned rows; loading ends |
| Participantes.ParticipantesPage.ResetForm | src/app/admin/participantes/page.tsx:47-55 | every field empty, nothing being edited, no error |
| Participantes.ParticipantesPage.HandleEdit | src/app/admin/participantes/page.tsx:57-73 | the participant's fields in the form (absent ones empty), its id being edited, the form open |
| Participantes.ParticipantesPage.HandleSubmit | src/app/admin/participantes/page.tsx:75-109 | saves the form's payload (update when editing, insert otherwise); an error keeps the form and shows the message; success resets and closes the form and refetches; saving ends false |
| Medicos.ProfileRowRoundTrip | src/app/admin/medicos/page.tsx:60-67 | the profile row belongs to the new account; name and admin flag are copied; the optional columns are null exactly when their fields are empty, and read back as the fields |
| Medicos.AbortsOnFirstError | src/app/admin/medicos/page.tsx:46-75 | a failed sign-up inserts no profile and reports its own message; a sign-up without an account reports "Erro ao criar usuário"; a staff member is created exactly when both steps succeed, under the account's id |
| Medicos.MedicosPage.constructor | src/app/admin/medicos/page.tsx:14-24 | the screen's initial state |
| Medicos.MedicosPage.HandleSubmit | src/app/admin/medicos/page.tsx:41-78 | the profile is inserted only after a sign-up with an account; any error keeps form and modal and shows its message; success closes the modal, empties the form and refetches; saving ends false |
| Eventos.CreatorOnlyOnCreate | src/app/super-admin/eventos/page.tsx:87 | `created_by` is sent exactly when creating, and then holds the signed-in user's id |
| Eventos.EditThenSave | src/app/super-admin/eventos/page.tsx:62-88 | editing and saving keeps name and status and every non-empty text column, writes null for the empty ones, and cuts each date to its first ten characters |
| Eventos.ShortDateSurvives | src/app/super-admin/eventos/page.tsx:67-84 | the start date and the end date each come back from edit and save unchanged exactly when absent or non-empty with at most ten characters |
| Eventos.DateSurvives | src/app/super-admin/eventos/page.tsx:67-84 | one date cut by `slice(0, 10)` and saved with empty as null comes back unchanged exactly when absent or non-empty with at most ten characters |
| Eventos.SaveRequestFor | src/app/super-admin/eventos/page.tsx:90-95 | editing leads to an update by the edited event's id, otherwise an insert, with the same payload |
| Eventos.ApplyStatus | src/app/super-admin/eventos/page.tsx:107-116 | same number of events; every event with the updated id gets the new status; every other field and every other event stays as it was |
| Eventos.ArchiveReactivateCycle | src/app/super-admin/eventos/page.tsx:275-284 | archiving turns the card's button into "reactivate" and reactivating turns it back into "archive"; no other event changes |
| Eventos.BadgeFallback | src/app/super-admin/eventos/page.tsx:122-127 | a known status shows its own badge and an unknown one the draft badge; the four badges have distinct labels |
| Eventos.EventosPage.constructor | src/app/super-admin/eventos/page.tsx:17-24 | the screen's initial state |
| Eventos.EventosPage.FetchEventos | src/app/super-admin/eventos/page.tsx:31-50 | the list is replaced only when the query returned rows; loading ends |
| Eventos.EventosPage.ResetForm | src/app/super-admin/eventos/page.tsx:56-60 | an empty draft form, nothing being edited, no error |
| Eventos.EventosPage.HandleEdit | src/app/super-admin/eventos/page.tsx:62-73 | the event's fields in the form with dates cut to ten characters, the event being edited, the form open |
| Eventos.EventosPage.HandleSubmit | src/app/super-admin/eventos/page.tsx:75-105 | saves the payload (update when editing, insert otherwise); an error keeps the form and shows the message; success resets and closes the form and refetches; saving ends false |
| Eventos.EventosPage.HandleArchive | src/app/super-admin/eventos/page.tsx:107-111 | only after confirmation, sets the event archived and refetches |
| Eventos.EventosPage.HandleReactivate | src/app/super-admin/eventos/page.tsx:113-116 | sets the event active, with no confirmation, and refetches |
| Usuarios.NamesOfSpec | src/app/super-admin/usuarios/page.tsx:34-41 | one name per membership with a named event and none for the others; every name is non-empty and names one of the memberships' events |
| Usuarios.NamesOfAppend | src/app/super-admin/usuarios/page.tsx:41 | the names keep the memberships' order |
| Usuarios.TogglesGuardSelf | src/app/super-admin/usuarios/page.tsx:54-72 | neither toggle ever updates the caller's own account; an update names the chosen user and negates the current value; the super-admin flag needs a confirmation that is asked exactly when the account is not one's own and whose question differs with the current value; the active flag needs none |
| Usuarios.ApplyFlag | src/app/super-admin/usuarios/page.tsx:61-70 | same number of users; every row with the updated id gets the chosen flag set to the new value; every other flag and every other row stays as it was |
| Usuarios.ToggleTwiceRestores | src/app/super-admin/usuarios/page.tsx:65-71 | toggling a user's active flag twice restores the table |
| Usuarios.UsuariosPage.constructor | src/app/super-admin/usuarios/page.tsx:20-21 | the screen's initial state |
| Usuarios.WithEvents | src/app/super-admin/usuarios/page.tsx:32-44 | one entry per user, in order, each the user with the event names of the answer to that user's own membership query |
| Usuarios.UsuariosPage.FetchUsuarios | src/app/super-admin/usuarios/page.tsx:28-48 | when the users query returned rows, the list becomes those users in order, each with the event names of its own membership query; otherwise it is kept; loading ends |
| Usuarios.UsuariosPage.ToggleSuperAdmin | src/app/super-admin/usuarios/page.tsx:54-63 | refuses on one's own account without asking; otherwise asks the question for the current value and needs confirmation; only an update refetches the list |
| Usuarios.UsuariosPage.ToggleActive | src/app/super-admin/usuarios/page.tsx:65-72 | refuses on one's own account; otherwise updates and refetches, rebuilding every user's event names |
| ParticipantProfile.BmiSpec | src/components/ParticipantProfile.tsx:70-71 | the index is shown exactly when weight and height are both non-zero, and then it is the weight per square of the height |
| ParticipantProfile.BmiColorBands | src/components/ParticipantProfile.tsx:72-75 | the colours partition the reals: below 18.5 blue, [18.5, 25) green, [25, 30) yellow, from 30 up red |
| ParticipantProfile.SegmentIndexRangeMonotone | src/components/ParticipantProfile.tsx:91-99 | the scale's pointer always lands on one of the six segments and never moves left as the index grows |
| ParticipantProfile.SegmentDisagreesWithBand | src/components/ParticipantProfile.tsx:73-99 | with the bounds as written, at 18.495 the index is coloured blue while the pointer sits on the green segment |
| ParticipantProfile.SegmentBandDisagreement | src/components/ParticipantProfile.tsx:72-99 | with the bounds as written, the segment under the pointer has a colour band other than the index's exactly when the index lies in (18.49, 18.5), (24.99, 25) or (29.99, 30) |
| ParticipantProfile.CorrectedSegmentAgreesWithBand | src/components/ParticipantProfile.tsx:72-99 | with the colour bands' bounds, the pointer always lands on a segment of the index's colour band |
| ParticipantProfile.HealthPointerSpec | src/components/ParticipantProfile.tsx:168-176 | the pointer marks segment level - 1 for the levels 1 to 5, and no segment for any other value |
| ParticipantProfile.HealthSectionUsesStoredLevel | src/components/ParticipantProfile.tsx:164-176 | inside the indicator section the level is the stored indicator, and a level from 1 to 5 gets a pointer |
| ParticipantProfile.BareParticipantShowsNoSections | src/components/ParticipantProfile.tsx:30-260 | a participant with no optional data shows no optional section, no index and no pointer |
| MarkerMap.MarkerSizeOrdered | src/components/Map.tsx:25-56 | a more severe encounter gets a strictly larger marker; an unknown severity gets 28; sizes lie between 24 and 36 |
| MarkerMap.MarkerIconOfSeverity | src/components/Map.tsx:54-64 | a stored severity's marker has its size and table colour, pulses exactly for grave and critical, and has a ring in the marker colour when there is no indicator |
| MarkerMap.IconGeometry | src/components/Map.tsx:80-82 | the icon is a square of side size + 16 anchored at its centre; the popup opens 4 pixels above the dot |
| MarkerMap.DefaultCenterSpec | src/components/Map.tsx:87-91 | an explicit centre wins; otherwise the first encounter's position; Ouro Preto only when there is none |
| MarkerMap.RingColorSpec | src/components/Map.tsx:60-61 | the ring has the marker's colour when the indicator is absent or zero, the level's colour for a level from 1 to 5, and grey exactly for any other non-zero level |
| MarkerMap.LevelBarSpec | src/components/Map.tsx:130-135 | for a level n from 1 to 5, bars 1 to n are opaque and the rest dimmed; the ring takes level n's colour |
| MarkerMap.Markers | src/components/Map.tsx:110-116 | one marker per encounter |
| MarkerMap.MarkersHighlightNew | src/components/Map.tsx:111 | a marker is highlighted exactly when its id is among the new ids; with no new ids none is |

## Left out

- The hosted backend is not modelled. Queries, inserts, updates, counts, storage uploads, public URLs and sign-up each become a parameter holding the answer: rows or null, or an error message. Row ordering (`order(...)`) is part of the answer, not something the model computes.
- The realtime subscription that refetches the dashboard on every change is left out. So are the `Promise.all` fan-outs that attach counts (`_participantes`, `_membros`) to each event on the events screen. Both are event-loop plumbing.
- The asynchronous interleavings and stale closures of the effects are left out. `EventContext.EventProvider.OnUserChange` reads `selectedEvento` at the moment it runs.
- `localStorage` is left out. The stored public event id is a parameter of `OnUserChange` and `RestorePublicEvent`, and the write in `selectPublicEvent`/`clearPublicEvent` is not modelled.
- Deleting a participant (`handleDelete`, src/app/admin/participantes/page.tsx:111-115) is a confirmed backend delete followed by a refetch, and is not modelled.
- The browser services are parameters:
  - image compression;
  - `URL.createObjectURL`, modelled as a preview holding its file;
  - `revokeObjectURL`;
  - geolocation;
  - the random, time-based storage file names.
- Rendering (JSX, styles, the map library's HTML icons, `toFixed`) is left out.
- Floating-point arithmetic is left out: the BMI, positions and levels are exact reals.
- Text.ParseIntToString: the age is an unbounded integer. JavaScript's number formatting is not modelled: `toString` switches to exponent form from 1e21 (which `parseInt` reads back as 1), and integers past 2^53 lose precision.
- Participantes.EditThenSaveRoundTrip: the age comes back unchanged for every integer in the model; in JavaScript that holds only for safe integers (magnitude at most 2^53 - 1), for the number-formatting reasons above.
- Participantes.SaveThenEditRoundTrip: a canonical age string round-trips for any length in the model; JavaScript's `toString` would give exponent form for 22 or more digits and lose precision past 2^53.
- Text: strings are sequences of Unicode scalar values, while JavaScript counts UTF-16 code units. A character outside the Basic Multilingual Plane counts once here and twice in `slice`. This does not affect the ASCII dates cut by `slice(0, 10)`, the white space `trim` removes, or `includes` on well-formed text.
- Text.ToLower: lower-cases ASCII and Latin-1 letters only, not the full Unicode case mapping of `toLowerCase`.
- Participantes.PayloadOf: an age field that does not start with a number gives `NaN`. The model keeps it as `NaN`, and `Saved` stores it as null, as JSON serialisation does.
- src/app/super-admin/page.tsx, src/lib/geolocation.ts, src/contexts/AuthContext.tsx, src/components/AppNavbar.tsx, src/app/login/page.tsx, src/app/page.tsx, src/app/layout.tsx and src/lib/supabase.ts are not part of this model. They hold session plumbing, redirects, client construction and backend count fan-outs.

## Findings

| source | as written | input that shows it | evidently intended | confidence | as-written member | corrected member |
|---|---|---|---|---|---|---|
| src/components/ParticipantProfile.tsx:72-99 | the BMI scale picks the first segment with `imc <= max` for max 18.49, 24.99 and 29.99, while the colour bands use `imc < 18.5`, `< 25` and `< 30` | imc = 18.495: coloured blue (underweight), pointer on the green "Nm" segment; the disagreement occurs exactly for imc in (18.49, 18.5), (24.99, 25) and (29.99, 30) | segment bounds 18.5, 25, 30, 35, 40 with `imc < max`, matching the colour bands | medium, not executed | ParticipantProfile.SegmentBandDisagreement (on ParticipantProfile.SegmentIndex) | ParticipantProfile.CorrectedSegmentAgreesWithBand (on ParticipantProfile.CorrectedSegmentIndex, used by ParticipantProfile.CorrectedBmiPointer) |
