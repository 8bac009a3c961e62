# Administrative services portal: application lifecycle and record derivation

This project models the core of an online citizen-services portal for a
Vietnamese local government. Citizens submit applications for four services:
birth registration, marriage registration, temporary residence and permanent
residence. Each application carries a JSON content document of form fields,
its uploaded files as attachment rows, and a history log of status changes.
Officials see an inbox and move applications to any status. The chairman sees
an approval queue and signs, completes or rejects applications. Signing a
birth, marriage or temporary-residence application also derives a
civil-registry record (a birth record, a marriage record with its citizen
rows, or a temporary residence) from the content document. A failure there is
swallowed, and the Signed status is kept.

The model takes these forms:

- The Entity Framework context is a class `Store.Db`.
  - It has one `seq` field per table, and a row's id is its position plus one.
  - Its methods save rows, and their `modifies` clauses name the tables they touch.
  - `Db.Valid()` holds the invariants every action keeps:
    - ids are counted;
    - history entries, attachments and confirmation requests point at existing applications, and marriage records at existing citizens (the other foreign keys are not held: an application's service type and citizen, a request's user ids, a citizen's parents and household);
    - the unique index on `Citizen.CCCD` holds;
    - an application has at most one confirmation request;
    - every application with history is in the status its latest entry records.
- Each controller action is a module-level method that takes the store `db: Db` and `ensures` its whole new state.
- The read-only queries and pure decisions are functions:
  - the eligibility reports;
  - the spouse and owner lookups;
  - the record derivations;
  - the registration numbers and the newborn's citizen id.
- Lemmas connect the parts:
  - the derivations against their success conditions;
  - the submission forms against the derivations that read them back (module `Lifecycle`);
  - the registration numbers against their injectivity;
  - the age calculation against "full years elapsed".

These sources of nondeterminism are parameters:

- The clock: `DateTime.Now`, `UtcNow` and `Today` are one `now`, and today is `now.date`.
- The JSON time stamp `SubmittedAt`.
- `DateTime.Parse`: a `parse: string -> Option<DateTime>`. The rendering of a fallback date is taken to parse back to that date.
- The draw of `Random.Next(100000, 999999)`: a `random` in that range.
- The stored file names (`<id>_<Guid><ext>`).
- The signed-in user id: an `Option<string>`.

Some behaviour of the source, now stated by lemmas:

- `Sign`, `Complete`, `Reject` and `Process` never inspect the current status.
- Signing saves the Signed status before it derives the record.
- The marriage derivation is not atomic. When both parties carry the same CCCD and the registry knows neither, the first citizen row is saved and no marriage is written (`Chairman.SameUnknownCccd`).
- `LookupOwner` reports `hasAccount = true` for an owner found only among the citizens. The temporary-residence submission, however, looks only at the accounts (`ResidenceRegistration.LookupOwnerOrder`, `ResidenceRegistration.Create`).
- The temporary-residence submission creates no confirmation request. The owner's account changes only the history note.

## Model

| member | source | states |
|---|---|---|
| Entities.Ordinal | AdministrativeServices/Models/Entities.cs:16-27 | each status has a stored integer below 9 |
| Entities.StatusOf | AdministrativeServices/Models/Entities.cs:16-27 | an integer denotes a status exactly when it is 0..8 |
| Entities.StatusNumbering | AdministrativeServices/Models/Entities.cs:16-27 | the nine statuses are numbered 0..8 one-to-one, in declaration order |
| Calendar.AddYears | AdministrativeServices/Controllers/MarriageRegistrationController.cs:346 | `AddYears` keeps the month and the day, except that 29 February becomes 28 February in a common target year; it keeps dates valid |
| Calendar.BeforeIsStrictTotalOrder | AdministrativeServices/Controllers/ChairmanController.cs:32 | the order `OrderByDescending` sorts DateTime keys by is a strict total order |
| Linq.FirstWhere | AdministrativeServices/Controllers/ChairmanController.cs:190-191 | `FirstOrDefault` finds the first row satisfying the predicate, and nothing exactly when no row does |
| Linq.FirstOrDefault | AdministrativeServices/Controllers/MarriageRegistrationController.cs:138-139 | a found row is in the table and satisfies the predicate; nothing is found exactly when no row satisfies it |
| Linq.Where | AdministrativeServices/Controllers/OfficialController.cs:28 | `Where` yields no more rows than the table |
| Linq.WhereCount | AdministrativeServices/Controllers/OfficialController.cs:28 | `Where` keeps each row satisfying the predicate as often as it occurs, and no other row |
| Linq.All | AdministrativeServices/Controllers/MarriageRegistrationController.cs:211 | `All` holds exactly when every element satisfies the predicate |
| Linq.InsertDescending | AdministrativeServices/Controllers/OfficialController.cs:29 | inserting a row adds exactly that row to the multiset |
| Linq.InsertNotAfter | AdministrativeServices/Controllers/OfficialController.cs:29 | inserting a row within a key bound keeps every key within the bound |
| Linq.InsertSorted | AdministrativeServices/Controllers/OfficialController.cs:29 | inserting into a newest-first sequence keeps it newest first |
| Linq.OrderByDescending | AdministrativeServices/Controllers/OfficialController.cs:29 | `OrderByDescending` returns a permutation of its input, sorted newest first |
| Linq.WhereOrderedDescending | AdministrativeServices/Controllers/CitizenController.cs:30-31 | `Where(p).OrderByDescending(k)`: each row satisfying p as often as it occurs, nothing else, newest first |
| Linq.WhereCountAll | AdministrativeServices/Controllers/OfficialController.cs:28 | the multiset of `Where` for every row at once |
| Text.Digit | AdministrativeServices/Controllers/BirthRegistrationController.cs:139 | a digit character denotes its value |
| Text.Decimal | AdministrativeServices/Controllers/BirthRegistrationController.cs:141 | `n.ToString()` is a non-empty string of digits |
| Text.TruncRem | AdministrativeServices/Controllers/BirthRegistrationController.cs:139 | C#'s `%` has the sign of the dividend and a magnitude below the divisor |
| Text.DecimalValue | AdministrativeServices/Controllers/BirthRegistrationController.cs:141 | reading `n.ToString()` back gives n |
| Text.ValueOfLeadingZeros | AdministrativeServices/Controllers/BirthRegistrationController.cs:139 | leading zeros do not change the value of a digit string |
| Text.PaddedValue | AdministrativeServices/Controllers/BirthRegistrationController.cs:139 | `ToString("Dw")` of n reads back as n, with at least w digits |
| Text.DecimalAtMost | AdministrativeServices/Controllers/BirthRegistrationController.cs:140 | a number below 10^w has at most w digits |
| Text.DecimalAtLeast | AdministrativeServices/Controllers/BirthRegistrationController.cs:140 | a number at least 10^w has more than w digits |
| Text.PaddedLength | AdministrativeServices/Controllers/ChairmanController.cs:156 | `ToString("D6")` of a number below a million has exactly six digits |
| Text.SplitAtDash | AdministrativeServices/Controllers/ChairmanController.cs:156 | a dash-free head is recovered from `head-rest` |
| Text.SplitAtComma | AdministrativeServices/Controllers/TemporaryResidenceController.cs:182 | a comma-free head is recovered from `head, rest` |
| Text.PaddedInjective | AdministrativeServices/Controllers/ChairmanController.cs:156 | different ids give different `D6` renderings |
| Text.Utf16Length | AdministrativeServices/Controllers/MarriageRegistrationController.cs:236 | `Length` counts UTF-16 code units: between one and two per character, and one per character exactly when none lies outside the Basic Multilingual Plane |
| Text.AstralPairLength | AdministrativeServices/Controllers/MarriageRegistrationController.cs:236 | any two characters outside the Basic Multilingual Plane (two emoji) have .NET length 4, so they pass the PIN length rule |
| Checks.Conclude | AdministrativeServices/Controllers/MarriageRegistrationController.cs:211-213 | the report keeps its entries, and `allPassed` holds exactly when every entry passed |
| Store.FindApplicationAt | AdministrativeServices/Controllers/OfficialController.cs:53-54 | `FindAsync(id)` finds a row exactly when 1 <= id <= row count, and then it is the row at id - 1 |
| Store.FindCitizenUnique | AdministrativeServices/Data/ApplicationDbContext.cs:45-47 | under the unique CCCD index, a citizen's CCCD finds that very citizen |
| Store.FindCitizenAppend | AdministrativeServices/Controllers/ChairmanController.cs:207-208 | after a citizen row is saved, a CCCD is unknown exactly when it was unknown and the new row has another |
| Store.AppendCitizen | AdministrativeServices/Controllers/ChairmanController.cs:207-208 | a new citizen saved as row n + 1 under a free CCCD keeps the ids counted and the CCCD index unique |
| Store.LastLoggedAppend | AdministrativeServices/Controllers/OfficialController.cs:62-70 | a new history entry becomes its application's latest logged status and leaves others' unchanged |
| Store.LastLoggedNone | AdministrativeServices/Models/Entities.cs:58 | an application no entry refers to has no logged status |
| Store.GetOrCreateIdempotent | AdministrativeServices/Controllers/BirthRegistrationController.cs:34-45 | get-or-create adds at most one row, the name then resolves, and a second get-or-create changes nothing |
| Store.Db.constructor | AdministrativeServices/Data/ApplicationDbContext.cs:45-47 | an empty store over the accounts satisfies the invariants |
| Store.Db.GetOrCreateServiceType | AdministrativeServices/Controllers/BirthRegistrationController.cs:34-46 | returns the row found by name, or saves and returns a new one |
| Store.Db.SaveNewApplication | AdministrativeServices/Controllers/BirthRegistrationController.cs:88-89 | the application is appended with the next id; the invariants hold |
| Store.Db.SaveHistory | AdministrativeServices/Controllers/BirthRegistrationController.cs:121-128 | an entry in its application's status is appended with the next id; the latest-status invariant holds |
| Store.Db.SaveTransition | AdministrativeServices/Controllers/OfficialController.cs:58-70 | the changed row and its entry are saved together; the latest-status invariant holds |
| Store.Db.SaveConfirmationRequest | AdministrativeServices/Controllers/MarriageRegistrationController.cs:276-285 | the request is appended with the next id; at most one per application |
| Store.Db.SaveAttachments | AdministrativeServices/Controllers/BirthRegistrationController.cs:92-118 | exactly the attachment rows of the uploads are appended |
| Store.Db.SaveCitizen | AdministrativeServices/Controllers/ChairmanController.cs:207-208 | the batch saves the pending changes and the new citizen exactly when its CCCD is free; otherwise nothing changes |
| Store.Db.SaveMarriage | AdministrativeServices/Controllers/ChairmanController.cs:247-248 | the batch writes the pending marital-status changes and appends the marriage |
| BirthRegistration.GenerateCitizenId | AdministrativeServices/Controllers/BirthRegistrationController.cs:136-142 | the id starts with the province code, then '0' exactly for "Nam" and '1' otherwise |
| BirthRegistration.CitizenIdLayout | AdministrativeServices/Controllers/BirthRegistrationController.cs:136-142 | the id has 9 characters after the province code: gender, two digits of year % 100, the six random digits |
| BirthRegistration.Prepare | AdministrativeServices/Controllers/BirthRegistrationController.cs:33-46 | get-or-create of "Đăng ký khai sinh", free of charge |
| BirthRegistration.Create | AdministrativeServices/Controllers/BirthRegistrationController.cs:64-131 | unauthorized changes nothing; otherwise one Submitted application with the eight fields, its attachments and a Submitted entry, now its latest logged status |
| MarriageRegistration.AgeIsFullYears | AdministrativeServices/Controllers/MarriageRegistrationController.cs:342-348 | the age is the years elapsed less one while this year's birthday is ahead |
| MarriageRegistration.AgeOnBirthday | AdministrativeServices/Controllers/MarriageRegistrationController.cs:342-348 | exactly n years before today gives n, one day later n - 1 |
| MarriageRegistration.MarriageCheckMeaning | AdministrativeServices/Controllers/MarriageRegistrationController.cs:138-177 | a marriage entry fails exactly when the citizen with the CCCD is a spouse of an Active marriage |
| MarriageRegistration.EligibilityResults | AdministrativeServices/Controllers/MarriageRegistrationController.cs:113-209 | five entries in fixed order; each age entry passes exactly when the party reaches 20 ("Nam") or 18, each marriage entry exactly when the party is in no Active marriage, the blood-relation entry exactly when the registered parties share no father or mother |
| MarriageRegistration.VerifyEligibility | AdministrativeServices/Controllers/MarriageRegistrationController.cs:108-214 | a report exactly when both dates parse, holding those five entries; allPassed exactly when all five pass |
| MarriageRegistration.LookupSpouseOrder | AdministrativeServices/Controllers/MarriageRegistrationController.cs:56-102 | empty CCCD refused; the first citizen with the CCCD answers, before any account, with the address of the first household carrying its household id (none for a null or unknown id); the first account answers only when no citizen has the CCCD; otherwise not found |
| MarriageRegistration.FormContentValues | AdministrativeServices/Controllers/MarriageRegistrationController.cs:242-255 | the content document holds each form field under its key |
| MarriageRegistration.Prepare | AdministrativeServices/Controllers/MarriageRegistrationController.cs:33-47 | get-or-create of "Đăng ký kết hôn" at 50 000 VND |
| MarriageRegistration.Create | AdministrativeServices/Controllers/MarriageRegistrationController.cs:217-340 | created exactly with a user and a PIN of at least four UTF-16 code units; AwaitingConfirmation and one Pending request exactly when an account has the spouse's CCCD, else Submitted; attachments; one entry in the initial status |
| MarriageRegistration.RequestConfirmation | AdministrativeServices/Controllers/MarriageRegistrationController.cs:273-285 | when an account has the spouse's CCCD, exactly one Pending "Marriage" request from the applicant to that account; otherwise none |
| ResidenceRegistration.LookupOwnerOrder | AdministrativeServices/Controllers/TemporaryResidenceController.cs:56-99 | empty CCCD refused; found, and said to have an account, exactly when a citizen or an account has the CCCD; the answer is the first citizen with the CCCD, else the first account with it |
| ResidenceRegistration.EligibilityMeaning | AdministrativeServices/Controllers/TemporaryResidenceController.cs:105-152 | three entries in fixed order; allPassed exactly when the applicant has no Active residence ending after now |
| ResidenceRegistration.FullAddressInjective | AdministrativeServices/Controllers/TemporaryResidenceController.cs:182 | comma-free parts are determined by the full address |
| ResidenceRegistration.FormContentValues | AdministrativeServices/Controllers/TemporaryResidenceController.cs:184-201 | the content document holds each form field and the full address under its key |
| ResidenceRegistration.Prepare | AdministrativeServices/Controllers/TemporaryResidenceController.cs:34-47 | get-or-create of "Đăng ký tạm trú", free of charge |
| ResidenceRegistration.Create | AdministrativeServices/Controllers/TemporaryResidenceController.cs:155-264 | created exactly with a user and a PIN of at least four UTF-16 code units; always Submitted with no request; the note gains the owner notice exactly when an account has the owner's CCCD |
| CitizenPortal.Applications | AdministrativeServices/Controllers/CitizenController.cs:23-35 | none without a user; otherwise exactly the user's applications, newest first |
| CitizenPortal.Prepare | AdministrativeServices/Controllers/CitizenController.cs:37-50 | get-or-create of "Đăng ký thường trú" at 15 000 VND |
| CitizenPortal.CreateResidentRegistration | AdministrativeServices/Controllers/CitizenController.cs:52-109 | unauthorized changes nothing; otherwise one Submitted application, an attachment per file at "/uploads/" + its own name, and a Submitted entry |
| Official.Inbox | AdministrativeServices/Controllers/OfficialController.cs:23-33 | exactly the applications not in Draft, Completed or Rejected, newest first |
| Official.Process | AdministrativeServices/Controllers/OfficialController.cs:50-72 | unknown id changes nothing; otherwise the chosen status, time and official, one entry with the note, now the latest logged status |
| Chairman.Queue | AdministrativeServices/Controllers/ChairmanController.cs:26-36 | exactly the PendingApproval applications, newest first |
| Chairman.PresentConcat | AdministrativeServices/Controllers/ChairmanController.cs:152-165 | the keys of two field lists are present exactly when each list's are |
| Chairman.Fields | AdministrativeServices/Controllers/ChairmanController.cs:158-165 | `GetProperty` succeeds on every key exactly when all are present, returning their values; otherwise it names a missing key |
| Chairman.RegistrationNumberLayout | AdministrativeServices/Controllers/ChairmanController.cs:156 | "prefix-year-id" ends in six digits spelling the id |
| Chairman.RegistrationNumberParts | AdministrativeServices/Controllers/ChairmanController.cs:238 | the registration number splits at its first dash |
| Chairman.RegistrationNumberInjective | AdministrativeServices/Controllers/ChairmanController.cs:238 | distinct prefix, year or id give distinct numbers |
| Chairman.BirthDerivationSucceeds | AdministrativeServices/Controllers/ChairmanController.cs:148-178 | the birth record is derived exactly when all eight fields exist and the date is null or parses; otherwise a missing key or the bad date |
| Chairman.ResidenceDerivationSucceeds | AdministrativeServices/Controllers/ChairmanController.cs:256-290 | the residence is derived exactly when all thirteen fields exist and both dates are null or parse |
| Chairman.ResidenceRecordFields | AdministrativeServices/Controllers/ChairmanController.cs:262-281 | the derived residence takes each field (null as "", type as "New"), the dates with their fallbacks, Active, not owner-confirmed |
| Chairman.FindParty | AdministrativeServices/Controllers/ChairmanController.cs:190-191 | a found party is a citizen with the document's CCCD |
| Chairman.NewPartyFields | AdministrativeServices/Controllers/ChairmanController.cs:199-206 | a new party is created exactly when the document has its name, date of birth and gender and the date is null or parses; it carries the CCCD, name and gender (null as ""), that date (today for null), and the married status |
| Chairman.PartyStepShape | AdministrativeServices/Controllers/ChairmanController.cs:196-233 | a known party is marked pending married; an unknown one is appended as married with the next id; the invariants hold |
| Chairman.FoundAt | AdministrativeServices/Controllers/ChairmanController.cs:190-194 | a found party's id is its index plus one |
| Chairman.UnknownPartyStep | AdministrativeServices/Controllers/ChairmanController.cs:197-210 | an unknown party created on success has the document's CCCD, is married, becomes row n + 1, and no row had its CCCD |
| Chairman.KnownApplicant | AdministrativeServices/Controllers/ChairmanController.cs:211-214 | a known applicant is only marked married in the change tracker, no row is saved |
| Chairman.UnknownApplicant | AdministrativeServices/Controllers/ChairmanController.cs:197-210 | an unknown applicant of a marriage that goes through is saved at once as row n + 1, married |
| Chairman.UnknownSpouse | AdministrativeServices/Controllers/ChairmanController.cs:216-248 | an unknown spouse is saved as the next row, then the record is written |
| Chairman.RecordForAppended | AdministrativeServices/Controllers/ChairmanController.cs:236-248 | exactly one record is appended: Active, never divorced, numbered "KH-year-id", between the two ids |
| Chairman.BothKnownRecorded | AdministrativeServices/Controllers/ChairmanController.cs:211-248 | both parties known: the record joins them, both married, no row added |
| Chairman.SpouseUnknownRecorded | AdministrativeServices/Controllers/ChairmanController.cs:211-248 | applicant known, spouse new: the record joins them, both married, the spouse's row added |
| Chairman.ApplicantUnknownRecorded | AdministrativeServices/Controllers/ChairmanController.cs:197-248 | applicant new, spouse known: the record joins them, both married, the applicant's row added |
| Chairman.BothUnknownRecorded | AdministrativeServices/Controllers/ChairmanController.cs:197-248 | both new: the record joins the two added rows, both married |
| Chairman.MarriageBothKnown | AdministrativeServices/Controllers/ChairmanController.cs:180-254 | with both parties known, the derivation records the marriage |
| Chairman.MarriageSpouseUnknown | AdministrativeServices/Controllers/ChairmanController.cs:180-254 | only the spouse unknown: one row added, the marriage recorded |
| Chairman.MarriageApplicantUnknown | AdministrativeServices/Controllers/ChairmanController.cs:180-254 | only the applicant unknown: one row added, the marriage recorded |
| Chairman.MarriageBothUnknown | AdministrativeServices/Controllers/ChairmanController.cs:180-254 | both unknown: two rows added, the marriage recorded |
| Chairman.MarriageDerived | AdministrativeServices/Controllers/ChairmanController.cs:180-254 | a successful derivation adds one Active "KH" marriage between the citizens with the two CCCDs, both married, rows only for unknown parties |
| Chairman.MarriageAborted | AdministrativeServices/Controllers/ChairmanController.cs:180-254 | an aborted derivation adds no marriage and at most the first party's new row |
| Chairman.SameUnknownCccd | AdministrativeServices/Controllers/ChairmanController.cs:197-229 | one unknown CCCD given twice: the first row is saved, the second hits the unique index, no marriage |
| Chairman.MatchesOneName | AdministrativeServices/Controllers/ChairmanController.cs:75-93 | a service type id matches at most one name |
| Chairman.AtMostOneDerivation | AdministrativeServices/Controllers/ChairmanController.cs:74-93 | at most one of the three derivations runs |
| Chairman.SignDerivationCases | AdministrativeServices/Controllers/ChairmanController.cs:74-93 | the derivation is the one the matching service calls for, or none without error |
| Chairman.DerivationStaysInItsTables | AdministrativeServices/Controllers/ChairmanController.cs:148-290 | each derivation writes only its own tables |
| Chairman.DeriveBirth | AdministrativeServices/Controllers/ChairmanController.cs:148-178 | the store ends as the birth step says |
| Chairman.DeriveResidence | AdministrativeServices/Controllers/ChairmanController.cs:256-290 | the store ends as the residence step says |
| Chairman.SaveParty | AdministrativeServices/Controllers/ChairmanController.cs:197-233 | one party against the store, as the party step says |
| Chairman.DeriveMarriage | AdministrativeServices/Controllers/ChairmanController.cs:180-254 | the store ends as the marriage step says |
| Chairman.SaveParties | AdministrativeServices/Controllers/ChairmanController.cs:190-254 | both parties and the marriage against the store |
| Chairman.SaveSpouse | AdministrativeServices/Controllers/ChairmanController.cs:216-248 | the second party and the marriage against the store |
| Chairman.Derive | AdministrativeServices/Controllers/ChairmanController.cs:74-93 | the registry ends as the guarded derivations say |
| Chairman.SignNoteFor | AdministrativeServices/Controllers/ChairmanController.cs:68 | a non-empty note is kept, a null or empty note becomes the default; never empty |
| Chairman.Sign | AdministrativeServices/Controllers/ChairmanController.cs:53-97 | unknown id changes nothing; otherwise Signed with one entry, now the latest, and the record derivation after it |
| Chairman.Complete | AdministrativeServices/Controllers/ChairmanController.cs:99-121 | unknown id changes nothing; otherwise Completed with one entry, now the latest |
| Chairman.Reject | AdministrativeServices/Controllers/ChairmanController.cs:123-146 | unknown id changes nothing; otherwise Rejected with the reason and an entry quoting it, now the latest |
| Lifecycle.BirthFormDerives | AdministrativeServices/Controllers/ChairmanController.cs:152-169 | a submitted birth form is derived exactly when its date parses, into a record carrying the form's fields |
| Lifecycle.ResidenceFormReadable | AdministrativeServices/Controllers/ChairmanController.cs:272-273 | a submitted residence form is derived exactly when both dates parse |
| Lifecycle.ResidenceFormDerives | AdministrativeServices/Controllers/ChairmanController.cs:262-281 | the derived residence carries the form's applicant, dates, owner and type, Active |
| Lifecycle.ResidenceFormAddress | AdministrativeServices/Controllers/TemporaryResidenceController.cs:182-194 | the derived residence's address is the composed full address, with its parts |
| Lifecycle.FormParties | AdministrativeServices/Controllers/ChairmanController.cs:199-206 | an unknown party of a submitted marriage form is created exactly when its date of birth parses, with the form's CCCD, name, gender and that date |
| Lifecycle.MarriageFormOutcome | AdministrativeServices/Controllers/ChairmanController.cs:180-254 | a submitted marriage form is recorded exactly when every unknown party's date parses and the parties are not one unknown CCCD twice |

## Left out

- File storage: the upload directory, the file copies and the Guid names. The stored names are a parameter of the submission methods; only the attachment rows are modelled.
- Strings: sequences of Unicode scalar values. A .NET string can also hold an unpaired surrogate, and the model does not represent one. Where the source compares `Length`, the model counts UTF-16 code units (`Text.Utf16Length`).
- JSON serialization: the content document is a map from keys to nullable strings. Non-string JSON values are not modelled, and the keys the forms write are assumed to deserialize unchanged.
- The response messages, `TempData`, `ViewBag` and the redirects. The model keeps only the decisions behind them (`Submission`, `SignOutcome`, the lookup results).
- `SubmittedAt`: written as an opaque stamp string, not as the "o" rendering of a DateTime.
- `UtcNow` and `Now`: one clock value `now`. Time zones are not modelled.
- `DateTime.Parse`: a parameter. Culture-dependent parsing is not modelled.
- View-only actions also left out: `Details`, `Review`, `Wallet`, and the whole account controller.
- Official.Process: the note is a non-null string. A null note from model binding is not modelled.
- Submission form parameters and the parameters of both `VerifyEligibility` actions: non-null strings. The PIN alone is nullable, because the source tests it for null. A null CCCD posted to an eligibility check finds no citizen in the source; its nearest model input, "", finds a citizen saved with an empty CCCD by the marriage derivation.
- MarriageRegistration.Create: a blank spouse CCCD is the empty string, not the null that model binding posts. In the source, the account lookup `u.CCCD == null` then matches any account whose CCCD was never set, so the application awaits confirmation and a Pending request goes to that account. The model finds no account for "" (unless one has the CCCD ""), and the application is Submitted with no request.
- ResidenceRegistration.Create: likewise, a blank owner CCCD is "". The source's null matches any account without a CCCD and adds the owner notice to the note; the model adds it only for an account with the CCCD "".
- MarriageRegistration.LookupSpouse: the answer carries the citizen and the household address, not the "yyyy-MM-dd" rendering of the date of birth.
- Asynchrony and concurrent requests: each action runs alone.
- Decimal fees: whole numbers of dong.
- A failure of `SaveChangesAsync` other than the unique CCCD index (connection loss, other constraints): not modelled.

