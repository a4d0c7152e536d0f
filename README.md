# MaternalCare+ core, modelled in Dafny

MaternalCare+ is a client-side maternal-health application for health workers and
mothers in North Kivu. This project models the parts of it that carry logic and proves
properties about them:

- **Domain types** (`types.dfy`, module `Types`): the `Role` and `JobRole`
  enums and the string-literal unions (risk level, partograph status, referral
  priority and status, liquor, structure type). Each union has its stored literal and a
  parse. The module also holds the patient, partograph, referral and health-structure
  records, and the documented 0–10 cm range of cervical dilatation, which nothing
  enforces (`DilatationInDocumentedRange`).
- **Record store** (`record_store.dfy`, module `RecordStore`): the local persistence
  shim. Class `Store` holds one decoded array per storage key, or `None` when nothing
  is stored. It models patients (get all, get by id, save by upsert), partographs
  (active ones, save) and referrals (get all, create with a drawn id).
- **Session** (`session.dfy`, module `Session`): the six fields of the top-level app,
  the screen they select, the login, logout and quit handlers, and the router's
  path-to-page choice with its catch-all redirect.
- **Role wizard** (`role_wizard.dfy`, module `RoleWizard`): the four-step role,
  province, zone and structure selector, with its fixed lists and the structure
  filter.
- **Login form** (`login.dfy`, module `LoginForms`): the fixed credential test, the
  error field and the role badge.
- **Professional menu** (`menu.dfy`, module `Menus`): the menu built from role and
  job role, and the four-entry mobile bar.
- **Partograph stepper** (`partograph_stepper.dfy`, module `PartographStepper`): the
  six-step form's active step, its flags, and the alert and action reference lines.
- **Vaccination card** (`vaccination.dfy`, module `Vaccination`): the dose list, dose
  confirmation, the status line and the user's displayed name and initials.
- **Patient list and patient file** (`patient_list.dfy`, `patient_file.dfy`): the
  search filter, risk colours, empty state, national id, risk badge, highlighted
  history codes, count defaults, blood-pressure flag and VAT rows.

Helper modules:

- `Options`: an `Option` datatype.
- `Seqs`: `filter`, `findIndex`/`find` and upsert on sequences, with their lemmas.
- `Strings`: `includes`, ASCII `toLowerCase`, `padStart`, `split`/`join` on one
  character, and decimal numerals.

The clock, `Math.random()` and the date of the day are parameters of the members that
read them.

## Model

| member | source | states |
|---|---|---|
| Types.AllRoles | types.ts:2-8 | Exactly five roles, every role listed once, with five distinct stored literals |
| Types.AllJobRoles | types.ts:10-15 | Exactly four job roles, every job role listed once, with four distinct stored literals |
| Types.ParseRiskLevel | types.ts:165 | A stored risk level is valid iff it is LOW, MEDIUM or HIGH, and it parses to the value stored under that literal |
| Types.ParsePartographStatus | types.ts:131 | A partograph status is valid iff it is ACTIVE, CLOSED or REFERRED |
| Types.ParsePriority | types.ts:153 | A referral priority is valid iff it is ROUTINE, EMERGENCY or VITAL |
| Types.ParseReferralStatus | types.ts:155 | A referral status is valid iff it is PENDING, IN_TRANSIT, RECEIVED or COMPLETED |
| Types.ParseLiquor | types.ts:122 | A liquor code is valid iff it is one of the four one-letter codes C, M, B, I |
| Types.ParseStructureType | types.ts:38 | A structure type is valid iff it is HGR or CS |
| Types.CodesRoundTrip | types.ts:122-165 | Every value of each union reads back as itself from the literal it is stored as |
| RecordStore.Decode | services/dbMock.ts:14-15 | An absent key reads as the empty array; a stored array reads as itself |
| RecordStore.SavedPatients | services/dbMock.ts:24-33 | The array written back keeps its length iff the id was stored, and otherwise grows by one. Patients with other ids are untouched, and the id is found afterwards |
| RecordStore.SaveExistingPatient | services/dbMock.ts:25-29 | Saving a stored id keeps the length and replaces only the first patient with that id. The replacement is the incoming patient with `updatedAt = now`; its `createdAt` is the incoming one, not the stored one |
| RecordStore.SaveNewPatient | services/dbMock.ts:30-31 | Saving an unknown id appends exactly one patient, stamped `createdAt = updatedAt = now`, and keeps the rest in place. Its `syncedAt` and `dhis2Uid` are the incoming patient's |
| RecordStore.GetByIdAfterSave | services/dbMock.ts:18-31 | After a save, lookup by the id finds the saved patient with its new `updatedAt`, at the id's old position or at the end |
| RecordStore.ActiveOnlyIsExactly | services/dbMock.ts:41 | The active partographs are exactly the stored ones with status ACTIVE, each as many times as it is stored, as an order-preserving subsequence |
| RecordStore.SavedPartographs | services/dbMock.ts:43-49 | The partograph save is the same upsert, without timestamps. A stored id keeps the length, has its first entry replaced by the partograph as given, and every other position, later entries with the same id included, unchanged. A new id is appended at the end. Lookup then finds the partograph as given |
| RecordStore.ReferralNumber | services/dbMock.ts:60 | `Math.floor(random * 10000)` of a draw in [0, 1) lies in [0, 9999] and is the floor of the scaled draw |
| RecordStore.EveryReferralNumberReachable | services/dbMock.ts:60 | Every number in [0, 9999] can be drawn |
| RecordStore.ReferralId | services/dbMock.ts:60 | The id is "REF-" followed by a decimal numeral that reads back as the drawn number |
| RecordStore.ReferralIdsCollideIffSameNumber | services/dbMock.ts:60 | Two referral ids are equal iff the drawn numbers are |
| RecordStore.NewReferral | services/dbMock.ts:61 | The new referral carries the drawn id, both clock stamps, and every other field of the draft unchanged |
| RecordStore.CreateDoesNotCheckUniqueness | services/dbMock.ts:58-63 | When the draw hits a stored id, the array written back holds two referrals with that id |
| RecordStore.Store.constructor | services/dbMock.ts:4-8 | Nothing is stored under the three keys |
| RecordStore.Store.GetAllPatients | services/dbMock.ts:12-16 | Returns the stored patients, or the empty array when the key is absent |
| RecordStore.Store.GetPatientById | services/dbMock.ts:18-21 | Returns the first stored patient with that id, or nothing iff no stored patient has it |
| RecordStore.Store.SavePatient | services/dbMock.ts:23-34 | The patient array becomes the upsert of the old one; the other two keys are unchanged |
| RecordStore.Store.GetActivePartographs | services/dbMock.ts:38-42 | Returns the ACTIVE partographs among the stored ones |
| RecordStore.Store.SavePartograph | services/dbMock.ts:43-50 | The partograph array becomes the upsert of the old one; the other keys are unchanged |
| RecordStore.Store.GetAllReferrals | services/dbMock.ts:54-57 | Returns the stored referrals, or the empty array when the key is absent |
| RecordStore.Store.CreateReferral | services/dbMock.ts:58-65 | Appends exactly one referral, with the drawn id and both stamps, and returns that id; the other keys are unchanged |
| Session.ScreenFor | App.tsx:41-73 | Role selector iff no role. Login iff a role but not authenticated. Job-role selector iff authenticated at zone or area level without a job role. Otherwise the workspace |
| Session.NoRoleShowsRoleSelector | App.tsx:41-49 | With no role the role selector shows, whatever the other fields hold |
| Session.RouteTarget | App.tsx:84-95 | A declared path is served as itself, and any other path redirects to "/" |
| Session.RouteTargetIdempotent | App.tsx:95 | A redirected path is not redirected again |
| Session.PageFor | App.tsx:84-94 | "/" mounts the community portal for COMMUNAUTE and the dashboard otherwise; "/cpn" mounts the patient list; "/partogram" the partograph view; "/afyabot" the chat bot; "/referrals" the referral system; "/vaccination" the calendar for the logged-in id; "/stats" the statistics |
| Session.UnknownPathServesHome | App.tsx:95 | An undeclared path mounts what "/" mounts |
| Session.KnownPathsMountDistinctPages | App.tsx:84-94 | Distinct declared paths mount distinct pages |
| Session.App.constructor | App.tsx:19-24 | All six fields start empty, and the role selector shows |
| Session.App.SelectRole | App.tsx:43-47 | Records role, province and structure; the other fields are unchanged, and the login screen follows |
| Session.App.LogIn | App.tsx:57-60 | Sets authenticated and the id; the other fields are unchanged, and neither login nor role selection follows |
| Session.App.LoginBack | App.tsx:61-65 | Clears role, province and structure, so the role selector shows |
| Session.App.ChooseJobRole | App.tsx:72 | Sets the job role, and the job-role selector gives way to the workspace |
| Session.App.Logout | App.tsx:26-30 | Clears authentication, job role and id, keeps role, province and structure, and the login screen follows |
| Session.App.Quit | App.tsx:32-39 | Resets all six fields to their initial values, and the role selector follows |
| RoleWizard.ZoneHospital | components/RoleSelector.tsx:69 | The structure built from a zone: id and zone id are the zone's, type HGR, the zone's province. The name is `hgrName`, or the zone name when `hgrName` is absent or empty |
| RoleWizard.StructuresOfIsExactly | components/RoleSelector.tsx:82 | The structure step lists exactly the structures of the selected zone, each as many times as it is declared, in declaration order, and none without a zone |
| RoleWizard.StructuresOfOfferedZones | components/RoleSelector.tsx:18-32 | Each of the three zones lists its own two health centres |
| RoleWizard.StructuresOfZone | components/RoleSelector.tsx:25-32 | Zone k lists the structures at positions 2k and 2k+1 |
| RoleWizard.RoleSelector.constructor | components/RoleSelector.tsx:11-13 | Starts at the role step with no role and no zone |
| RoleWizard.RoleSelector.ClickRole | components/RoleSelector.tsx:34-39 | Records the role. DPS goes to the provinces, zone and area roles to the zones, and the other two are selected at once without province or structure |
| RoleWizard.RoleSelector.ChooseProvince | components/RoleSelector.tsx:48-49 | Selects DPS with that province |
| RoleWizard.RoleSelector.ChooseZone | components/RoleSelector.tsx:66-70 | The zone role selects the zone's hospital; the area role stores the zone and moves to the structure step |
| RoleWizard.RoleSelector.ChooseStructure | components/RoleSelector.tsx:89-90 | Selects the area role with a structure of the selected zone |
| RoleWizard.RoleSelector.Back | components/RoleSelector.tsx:45-86 | Province and zone go back to the roles, structure back to the zones; role and zone are kept |
| LoginForms.AcceptedCredentials | components/Login.tsx:22-23 | Accepted iff the id is exactly one of the two test ids and the password is exactly "12345678" |
| LoginForms.LoginForm.constructor | components/Login.tsx:15-17 | The three fields start empty |
| LoginForms.LoginForm.EnterId | components/Login.tsx:64 | Typing sets the id only |
| LoginForms.LoginForm.EnterPassword | components/Login.tsx:78 | Typing sets the password only |
| LoginForms.LoginForm.Submit | components/Login.tsx:19-28 | Logs in iff the credentials are accepted, with the id as entered and the error untouched. Otherwise it sets the non-empty rejection message; the props play no part |
| LoginForms.ReplaceFirst | components/Login.tsx:41 | `replace` with a one-character pattern turns the first occurrence into the replacement, changes nothing else, and keeps the length |
| LoginForms.ReplaceAll | components/Login.tsx:41 | Every occurrence is replaced, so none is left |
| LoginForms.RoleBadgeAsWritten | components/Login.tsx:41 | The badge as written: the role code with its first underscore shown as a space and every other character kept |
| LoginForms.RoleBadge | components/Login.tsx:41 | The corrected badge, as intended for the login screen and for the console title of components/Layout.tsx:85: every underscore of the role code shown as a space and every other character kept, so no underscore is left and the length is the code's |
| LoginForms.ReplaceFirstKeepsLaterOccurrence | components/Login.tsx:41 | An occurrence after the first survives `replace` |
| LoginForms.ReplaceFirstIsReplaceAllOnSingleOccurrence | components/Login.tsx:41 | With one occurrence, replacing the first replaces all |
| LoginForms.RoleBadgeKeepsSecondUnderscore | components/Login.tsx:41 | For ZONE_DE_SANTE and AIRE_DE_SANTE the badge as written keeps an underscore, while the corrected badge has none |
| Menus.ProMenu | components/Layout.tsx:38-53 | Starts with Accueil then AfyaBot, has 2 to 5 entries in the fixed order, only the base two without a job role at zone or area level, and exactly Accueil, AfyaBot, CPN, Stats for the other roles |
| Menus.JobMenuCareEntries | components/Layout.tsx:44-47 | At zone or area level CPN is present iff the job role is doctor, midwife or nurse, and the partograph iff doctor or midwife |
| Menus.JobMenuOtherEntries | components/Layout.tsx:44-49 | At zone or area level the referrals are present iff the job role is doctor, midwife or admin, and the statistics never |
| Menus.ProMenuItems | components/Layout.tsx:38-53 | The step-by-step push builds exactly `ProMenu` |
| Menus.MenuPathsAreRoutes | components/Layout.tsx:42-52 | Every menu path is a route the router declares |
| Menus.NoMenuEntryForVaccination | components/Layout.tsx:42-52 | No professional menu links to the vaccination calendar |
| Menus.MobileBar | components/Layout.tsx:97 | The mobile bar is the first min(4, n) entries of the menu |
| Menus.LayoutMenu | components/Layout.tsx:35-57 | No professional menu iff the role is COMMUNAUTE; otherwise `ProMenu` |
| Menus.MobileBarDropsReferralsForMedicalStaff | components/Layout.tsx:97 | A doctor or midwife at zone or area level has five entries, and the mobile bar drops the referrals |
| Menus.MobileBarShowsWholeMenuOtherwise | components/Layout.tsx:97 | In every other case the mobile bar shows the whole menu |
| PartographStepper.Steps | components/PartographForm.tsx:37-44 | Six steps with ids 1 to 6 in order |
| PartographStepper.ConnectorFollowsLeftStep | components/PartographForm.tsx:71-72 | A connector is highlighted iff the step on its left is completed |
| PartographStepper.StepFlags | components/PartographForm.tsx:53-54 | Within 1..6 exactly one step is active, completed iff before it, never both; past 6 all are completed and none active |
| PartographStepper.RendersContent | components/PartographForm.tsx:82-245 | Content is drawn iff the active step is one of the six and is Admission, Examen Clinique or Phase Active |
| PartographStepper.NextLabel | components/PartographForm.tsx:329 | The next button reads "Terminer & Fermer Dossier" iff the step is 6 |
| PartographStepper.Stepper.constructor | components/PartographForm.tsx:35 | The form starts at step 1 |
| PartographStepper.Stepper.Previous | components/PartographForm.tsx:319-320 | No change at step 1, otherwise one step back; never below 1 |
| PartographStepper.Stepper.Next | components/PartographForm.tsx:326 | One step on without bound; from 6 it reaches a step with no content and no active step |
| PartographStepper.Stepper.Jump | components/PartographForm.tsx:58 | A step button makes that step, in 1..6, the active one |
| PartographStepper.Shifted | components/PartographForm.tsx:272-274 | Shifting a segment moves both ends by the same hours and keeps the dilatations |
| PartographStepper.ActionLineIsAlertLineFourHoursLater | components/PartographForm.tsx:272-274 | The action line is the alert line four hours later; the alert line rises 1 cm an hour from 4 to 10 cm |
| Vaccination.InitialSchedule | components/VaccinationCalendar.tsx:17-22 | Four doses VAT 1 to VAT 4 in order: done, due, planned, planned |
| Vaccination.OnePendingAtStart | components/VaccinationCalendar.tsx:17-22 | Exactly one dose is due at the start, VAT 2 |
| Vaccination.DisplayLine | components/VaccinationCalendar.tsx:84 | A given dose reads "Administré le" and its date; any other reads "Prévu le" and its date |
| Vaccination.Confirmed | components/VaccinationCalendar.tsx:26-27 | The confirmed dose is given today, with its name, period and description kept |
| Vaccination.PatientName | components/VaccinationCalendar.tsx:15 | A mapped id shows its name, and the fallback shows iff the id is missing or unmapped |
| Vaccination.KnownPatientNames | components/VaccinationCalendar.tsx:10-15 | The two test users are named, and every other id falls back |
| Vaccination.InitialsOfThreeWords | components/VaccinationCalendar.tsx:45 | A three-word name has its three first letters as initials |
| Vaccination.KnownPatientInitials | components/VaccinationCalendar.tsx:45 | The two test users' avatars read "MSM" and "MZN" |
| Vaccination.VaccinationCard.constructor | components/VaccinationCalendar.tsx:17 | The card starts with the initial schedule |
| Vaccination.VaccinationCard.Offered | components/VaccinationCalendar.tsx:86-88 | A dose with the confirmation button is not given, and its line reads "Prévu le" and its date |
| Vaccination.VaccinationCard.ConfirmDose | components/VaccinationCalendar.tsx:24-28 | Only entry `index` changes, to given today; its line reads "Administré le" today. The due count drops by one iff that entry was due, so no planned dose becomes due |
| PatientList.FilteredIsExactly | components/CPNList.tsx:35-38 | A patient is listed iff the lower-cased name contains the lower-cased term or the phone contains the term. It is listed as many times as it was loaded, in loading order |
| PatientList.EmptyTermKeepsAll | components/CPNList.tsx:35-38 | An empty search lists every patient |
| PatientList.NameMatchIgnoresCase | components/CPNList.tsx:36 | The name test gives the same answer for a term and its lower-cased form |
| PatientList.LongerTermNarrows | components/CPNList.tsx:35-38 | A patient listed for a longer term is listed for its beginning |
| PatientList.RiskStyles | components/CPNList.tsx:27-33 | Red iff HIGH, orange iff MEDIUM, emerald for every other string |
| PatientList.RiskStylesOfLevels | components/CPNList.tsx:27-33 | Two stored risk levels share a colour iff they are equal, and LOW looks like an unknown level |
| PatientList.ShowsNoPatientFound | components/CPNList.tsx:90-95 | The empty state shows iff loading is over and no patient is in the filtered list |
| PatientList.EmptyStateMeansNoMatch | components/CPNList.tsx:90-95 | Once loaded, the empty state shows iff no loaded patient matches the search |
| PatientList.EmptyStateWithoutSearch | components/CPNList.tsx:90-95 | With an empty search, "no patient found" shows iff nothing is stored |
| Strings.Lower | components/CPNList.tsx:36 | Lower-casing keeps the length and maps each character |
| Strings.InitialsOfWords | components/CPNList.tsx:122 | A name of non-empty, space-free words joined by single spaces has one initial per word, that word's first letter |
| Strings.PadStart | components/CPNForm.tsx:46 | Left-pads to the length with the fill character and keeps the string at the end; a long enough string is unchanged |
| Strings.NatToString | services/dbMock.ts:60 | The numeral is non-empty decimal digits, starting with '0' only for zero |
| Strings.ParseNatToString | services/dbMock.ts:60 | Reading a numeral back gives the number |
| PatientFile.NationalId | components/CPNForm.tsx:46 | "PNSR-", then zeros, then the id, at length 5 + max(6, id length); an id of 6 or more characters is unchanged |
| PatientFile.NationalIdInjective | components/CPNForm.tsx:46 | Ids not starting with '0' have distinct national ids |
| PatientFile.LeadingZerosShareNationalId | components/CPNForm.tsx:46 | "42" and "042" share the national id "PNSR-000042" |
| PatientFile.RiskBadge | components/CPNForm.tsx:48-49 | "HAUT RISQUE" iff HIGH, "RISQUE NORMAL" otherwise |
| PatientFile.RiskBadgeAgreesWithList | components/CPNForm.tsx:48-49 | The file says high risk iff the list draws the risk in red |
| PatientFile.HighlightedCodesAreExactly | components/CPNForm.tsx:101-103 | For any list of chip codes, the eight listed ones included, a code is red iff the medical history has it. With no antecedents nothing is red |
| PatientFile.DisplayedCounts | components/CPNForm.tsx:118-130 | The four counts are 0 without antecedents and the stored ones otherwise |
| PatientFile.BpFlagged | components/CPNForm.tsx:178 | A reading is flagged iff its text has a '1' directly followed by a '4' somewhere, so "114/70" is flagged and "41/90" is not. In particular a reading that starts with "14" is flagged |
| PatientFile.BpFlagIsTextual | components/CPNForm.tsx:178 | The flag is a text test: "140/90" and "114/70" are flagged, "160/110" is not |
| PatientFile.EvolutionRows | components/CPNForm.tsx:173 | A missing evolution list shows no rows; otherwise all of them |
| PatientFile.VatDate | components/CPNForm.tsx:218-222 | Row v shows `vatDates[v-1]` iff there are preventive measures with at least v dates |
| PatientFile.VatRowsShowFirstFiveDates | components/CPNForm.tsx:218-222 | The five rows show the first five dates in order, and a sixth date is never shown |

## Left out

- Browser persistence is abstracted: each `localStorage` key is one field holding the decoded array. `JSON.parse`/`JSON.stringify`, a stored value that fails to parse and the artificial 200 ms delay are not modelled.
- The asynchronous form of every store operation is not modelled. Each runs as one atomic step, so interleaved saves are not covered.
- `new Date().toISOString()`, `new Date().toLocaleDateString()` and `Math.random()` are parameters. Their formats, and the draw range [0, 1), are assumed rather than derived.
- Strings.Lower: lower-cases ASCII letters only. JavaScript's Unicode `toLowerCase`, which also folds accented and non-Latin capitals, is not modelled.
- The generative-AI calls of the chat bot and the dashboard are network I/O and are not part of this model.
- Timers and browser events are not modelled: the SOS and export timeouts and the online/offline listener.
- Charts and layout are not modelled, apart from the two reference lines' coordinates. The form draws those lines but classifies no observation against them, so the model has no classifier.
- Screens that only render fixed sample data are not part of this model: statistics, partograph overview, community portal, job-role list, referral board and new-patient form.
- The router matches paths exactly. react-router's case-insensitive and trailing-slash matching is not modelled.
- Vaccination.PatientName: the name table is a `map`. Keys inherited from the JavaScript object prototype (such as "constructor"), which the source would look up as truthy values, are not modelled.
- Vaccination.VaccinationCard.ConfirmDose: modelled as a value update of the dose list. The source mutates the shared dose objects through a shallow copy; that aliasing is not modelled.
- The list screen's `loadPatients` effect and its loading flag are not modelled; the loading flag is a parameter of `ShowsNoPatientFound`.
- The mobile bar's "Quitter" button is wired to logout rather than quit. This is button wiring and is not modelled; `Session.App.Logout` and `Session.App.Quit` are the two handlers.
- Numeric fields of the records (`number` in the source) are integers or reals. A NaN count is not represented, so the `|| 0` fallback of the obstetrical counts is modelled only for absent antecedents.
- The browser `alert` that `confirmDose` raises after confirming a dose is a side effect on the page and is not modelled.
- Display styling that only maps state to CSS classes is not modelled; the colour mapping of `getRiskStyles` is.

## Findings

| source | as written | input that shows it | evidently intended | confidence | as-written member | corrected member |
|---|---|---|---|---|---|---|
| components/Login.tsx:41 | `role.replace('_', ' ')` replaces only the first underscore; the console title at components/Layout.tsx:85 does the same | role ZONE_DE_SANTE shows "ZONE DE_SANTE", and AIRE_DE_SANTE shows "AIRE DE_SANTE" | every underscore shown as a space ("ZONE DE SANTE") | not executed | LoginForms.RoleBadgeKeepsSecondUnderscore | LoginForms.RoleBadge |
