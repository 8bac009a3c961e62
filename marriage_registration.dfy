/**
 * Marriage registration (Controllers/MarriageRegistrationController.cs): the
 * service type, the spouse lookup, the advisory eligibility report, and the
 * applicant's submission, which asks the spouse to confirm when the spouse
 * has an account.
 */
module MarriageRegistration {
  import opened Wrappers
  import opened Calendar
  import opened Text
  import opened Linq
  import opened Entities
  import opened CitizenRecord
  import opened Store
  import opened Checks

  const ServiceName: string := "Đăng ký kết hôn"
  const ServiceDescription: string := "Đăng ký kết hôn cho công dân Việt Nam"
  const ServiceFee: int := 50000
  const DocumentType: string := "MarriageDoc"
  const RequestType: string := "Marriage"
  const OnlineNote: string := "Hồ sơ đăng ký kết hôn đã được nộp trực tuyến"
  const AwaitingNote: string := "Hồ sơ đăng ký kết hôn đã được nộp. Đang chờ "
  const ConfirmNote: string := " xác nhận."

  // ---------------------------------------------------------------------------
  // Age
  // ---------------------------------------------------------------------------

  /**
   * `CalculateAge`: the difference of the years, less one when the date of
   * birth falls after today moved back by that many years.
   */
  function CalculateAge(dateOfBirth: DateTime, today: Date): int {
    var age := today.year - dateOfBirth.date.year;
    if DateBefore(AddYears(today, -age), dateOfBirth.date) then age - 1 else age
  }

  /** This year's birthday is still to come: today's month and day come before those of the birth date. */
  predicate BirthdayAhead(dateOfBirth: Date, today: Date) {
    today.month < dateOfBirth.month || (today.month == dateOfBirth.month && today.day < dateOfBirth.day)
  }

  /**
   * On real dates the age is the number of full years elapsed: the difference
   * of the years, less one while this year's birthday is still ahead (someone
   * born on 29 February turns a year older on 1 March in a common year).
   */
  lemma AgeIsFullYears(dateOfBirth: DateTime, today: Date)
    requires ValidDate(dateOfBirth.date) && ValidDate(today)
    ensures CalculateAge(dateOfBirth, today)
         == today.year - dateOfBirth.date.year - (if BirthdayAhead(dateOfBirth.date, today) then 1 else 0)
  {
    var dob := dateOfBirth.date;
    var back := AddYears(today, -(today.year - dob.year));
    assert back.year == dob.year && back.month == today.month;
    if today.month == 2 && today.day == 29 && !IsLeapYear(dob.year) {
      assert back.day == 28;
      assert dob.month == 2 ==> dob.day <= 28;
    } else {
      assert back.day == today.day;
    }
  }

  /** Born exactly n years before today gives n; born the day after that gives n - 1. */
  lemma AgeOnBirthday(today: Date, n: int, time: nat)
    requires ValidDate(today) && today.day < DaysInMonth(today.year - n, today.month)
    ensures CalculateAge(DateTime(Date(today.year - n, today.month, today.day), time), today) == n
    ensures CalculateAge(DateTime(Date(today.year - n, today.month, today.day + 1), time), today) == n - 1
  {
    AgeIsFullYears(DateTime(Date(today.year - n, today.month, today.day), time), today);
    AgeIsFullYears(DateTime(Date(today.year - n, today.month, today.day + 1), time), today);
  }

  /** The minimum age to marry: 20 for a man ("Nam"), 18 otherwise. */
  function RequiredAge(gender: string): int {
    if gender == "Nam" then 20 else 18
  }

  // ---------------------------------------------------------------------------
  // Eligibility report
  // ---------------------------------------------------------------------------

  const ApplicantAgeCheck: string := "Tuổi người nộp"
  const SpouseAgeCheck: string := "Tuổi vợ/chồng"
  const ApplicantMarriageCheck: string := "Tình trạng hôn nhân người nộp"
  const SpouseMarriageCheck: string := "Tình trạng hôn nhân vợ/chồng"
  const BloodRelationCheckName: string := "Quan hệ huyết thống"

  /** The messages of the report entries. */
  const TooYoungMessage: string := "Chưa đủ tuổi kết hôn. Yêu cầu: "
  const CurrentAgeMessage: string := ", Hiện tại: "
  const OldEnoughMessage: string := "Đủ tuổi kết hôn ("
  const YearsMessage: string := " tuổi)"
  const NoRecordMessage: string := "Chưa có hồ sơ trong hệ thống (cần xác minh thủ công)"
  const MarriedMessage: string := "Vi phạm chế độ một vợ một chồng - đã có hôn nhân đang hiệu lực"
  const NotMarriedMessage: string := "Không có hôn nhân đang hiệu lực"
  const SameFatherMessage: string := "Cùng cha"
  const SameMotherMessage: string := "Cùng mẹ"
  const AlsoSameMotherMessage: string := ", cùng mẹ"
  const NoDataMessage: string := "Không đủ dữ liệu để kiểm tra tự động"
  const RelatedMessage: string := "Phát hiện quan hệ huyết thống: "
  const NotRelatedMessage: string := "Không phát hiện quan hệ huyết thống trực tiếp"

  /** The message of an age entry. */
  function AgeMessage(age: int, required: int): string {
    if age < required then
      TooYoungMessage + IntToString(required) + CurrentAgeMessage + IntToString(age)
    else
      OldEnoughMessage + IntToString(age) + YearsMessage
  }

  function AgeCheck(name: string, age: int, required: int): (c: Check)
    ensures c.check == name && (c.passed <==> age >= required)
  {
    Check(name, age >= required, AgeMessage(age, required))
  }

  /** `MarriageRecords.FirstOrDefaultAsync(...)`: an Active marriage with the citizen as either spouse. */
  function ActiveMarriage(marriages: seq<MarriageRecord>, citizenId: int): Option<MarriageRecord> {
    FirstOrDefault(marriages, (m: MarriageRecord) =>
      (m.spouse1Id == citizenId || m.spouse2Id == citizenId) && m.status == Active)
  }

  /** The message of a marriage entry. */
  function MarriageMessage(party: Option<Citizen>, marriages: seq<MarriageRecord>): string {
    if party.None? then NoRecordMessage
    else if ActiveMarriage(marriages, party.value.id).Some? then
      MarriedMessage
    else NotMarriedMessage
  }

  /** A party of a marriage check: unknown to the registry passes, to be checked by hand. */
  function MarriageCheck(name: string, party: Option<Citizen>, marriages: seq<MarriageRecord>): (c: Check)
    ensures c.check == name
    ensures c.passed <==> party.None? || ActiveMarriage(marriages, party.value.id).None?
  {
    Check(name, party.None? || ActiveMarriage(marriages, party.value.id).None?, MarriageMessage(party, marriages))
  }

  /** Both citizens have a recorded father, and it is the same one. */
  predicate SameFather(a: Citizen, b: Citizen) {
    a.fatherId.Some? && b.fatherId.Some? && a.fatherId == b.fatherId
  }

  /** Both citizens have a recorded mother, and it is the same one. */
  predicate SameMother(a: Citizen, b: Citizen) {
    a.motherId.Some? && b.motherId.Some? && a.motherId == b.motherId
  }

  function RelationMessage(a: Citizen, b: Citizen): string {
    var father := if SameFather(a, b) then SameFatherMessage else "";
    if SameMother(a, b) then father + (if father == "" then SameMotherMessage else AlsoSameMotherMessage) else father
  }

  /** The message of the blood-relation entry. */
  function RelationCheckMessage(applicant: Option<Citizen>, spouse: Option<Citizen>): string {
    if applicant.None? || spouse.None? then NoDataMessage
    else if SameFather(applicant.value, spouse.value) || SameMother(applicant.value, spouse.value) then
      RelatedMessage + RelationMessage(applicant.value, spouse.value)
    else NotRelatedMessage
  }

  /** The blood-relation check runs only when both parties are in the registry. */
  function BloodRelationCheck(applicant: Option<Citizen>, spouse: Option<Citizen>): (c: Check)
    ensures c.check == BloodRelationCheckName
    ensures !c.passed <==>
              applicant.Some? && spouse.Some? && (SameFather(applicant.value, spouse.value) || SameMother(applicant.value, spouse.value))
  {
    Check(BloodRelationCheckName,
          !(applicant.Some? && spouse.Some? && (SameFather(applicant.value, spouse.value) || SameMother(applicant.value, spouse.value))),
          RelationCheckMessage(applicant, spouse))
  }

  /** The citizen with this CCCD is a spouse of some Active marriage. */
  predicate MarriedNow(citizens: seq<Citizen>, marriages: seq<MarriageRecord>, cccd: string) {
    var c := FindCitizen(citizens, cccd);
    c.Some? && exists k | 0 <= k < |marriages| ::
      marriages[k].status == Active && (marriages[k].spouse1Id == c.value.id || marriages[k].spouse2Id == c.value.id)
  }

  /** Both parties are in the registry and share a recorded father or a recorded mother. */
  predicate Related(citizens: seq<Citizen>, applicantCccd: string, spouseCccd: string) {
    var a := FindCitizen(citizens, applicantCccd);
    var b := FindCitizen(citizens, spouseCccd);
    a.Some? && b.Some? && (SameFather(a.value, b.value) || SameMother(a.value, b.value))
  }

  /** A marriage entry fails exactly when the party is a spouse of an Active marriage. */
  lemma MarriageCheckMeaning(name: string, citizens: seq<Citizen>, marriages: seq<MarriageRecord>, cccd: string)
    ensures var c := MarriageCheck(name, FindCitizen(citizens, cccd), marriages);
      c.check == name && (c.passed <==> !MarriedNow(citizens, marriages, cccd))
  {
    var party := FindCitizen(citizens, cccd);
    if party.Some? {
      var id := party.value.id;
      var p := (m: MarriageRecord) => (m.spouse1Id == id || m.spouse2Id == id) && m.status == Active;
      if ActiveMarriage(marriages, id).None? {
        forall k | 0 <= k < |marriages| ensures !p(marriages[k]) {
        }
      } else {
        var m := ActiveMarriage(marriages, id).value;
        assert p(m);
      }
    }
  }

  /**
   * The five entries of the report once both dates of birth are read, in
   * fixed order: each age entry passes exactly when the party is at least the
   * required age for their gender, each marriage entry exactly when the party
   * is not a spouse of an Active marriage, and the blood-relation entry exactly
   * when the parties are not known to share a parent.
   */
  function EligibilityResults(citizens: seq<Citizen>, marriages: seq<MarriageRecord>,
                              applicantCccd: string, spouseCccd: string,
                              applicantGender: string, spouseGender: string,
                              applicantDob: DateTime, spouseDob: DateTime, today: Date): (results: seq<Check>)
    ensures |results| == 5
    ensures results[0].check == ApplicantAgeCheck && results[1].check == SpouseAgeCheck
    ensures results[2].check == ApplicantMarriageCheck && results[3].check == SpouseMarriageCheck
    ensures results[4].check == BloodRelationCheckName
    ensures results[0].passed <==> CalculateAge(applicantDob, today) >= RequiredAge(applicantGender)
    ensures results[1].passed <==> CalculateAge(spouseDob, today) >= RequiredAge(spouseGender)
    ensures results[2].passed <==> !MarriedNow(citizens, marriages, applicantCccd)
    ensures results[3].passed <==> !MarriedNow(citizens, marriages, spouseCccd)
    ensures results[4].passed <==> !Related(citizens, applicantCccd, spouseCccd)
  {
    MarriageCheckMeaning(ApplicantMarriageCheck, citizens, marriages, applicantCccd);
    MarriageCheckMeaning(SpouseMarriageCheck, citizens, marriages, spouseCccd);
    var applicant := FindCitizen(citizens, applicantCccd);
    var spouse := FindCitizen(citizens, spouseCccd);
    [AgeCheck(ApplicantAgeCheck, CalculateAge(applicantDob, today), RequiredAge(applicantGender)),
     AgeCheck(SpouseAgeCheck, CalculateAge(spouseDob, today), RequiredAge(spouseGender)),
     MarriageCheck(ApplicantMarriageCheck, applicant, marriages),
     MarriageCheck(SpouseMarriageCheck, spouse, marriages),
     BloodRelationCheck(applicant, spouse)]
  }

  /**
   * `VerifyEligibility`: both dates of birth are parsed first, and one that
   * does not parse fails the whole request (`None`); otherwise the report of
   * the five entries, which has passed exactly when all five have.
   */
  function VerifyEligibility(citizens: seq<Citizen>, marriages: seq<MarriageRecord>,
                             applicantCccd: string, spouseCccd: string,
                             applicantGender: string, spouseGender: string,
                             applicantDob: string, spouseDob: string,
                             today: Date, parse: string -> Option<DateTime>): (r: Option<Report>)
    ensures r.Some? <==> parse(applicantDob).Some? && parse(spouseDob).Some?
    ensures r.Some? ==> r.value.results == EligibilityResults(citizens, marriages, applicantCccd, spouseCccd,
                                             applicantGender, spouseGender,
                                             parse(applicantDob).value, parse(spouseDob).value, today)
    ensures r.Some? ==> (r.value.allPassed <==> forall i | 0 <= i < 5 :: r.value.results[i].passed)
  {
    var dob1 := parse(applicantDob);
    var dob2 := parse(spouseDob);
    if dob1.None? || dob2.None? then None
    else
      Some(Conclude(EligibilityResults(citizens, marriages, applicantCccd, spouseCccd, applicantGender, spouseGender,
                                       dob1.value, dob2.value, today)))
  }

  // ---------------------------------------------------------------------------
  // Spouse lookup
  // ---------------------------------------------------------------------------

  /** What `LookupSpouse` answers. */
  datatype SpouseLookup =
    | NoCccd                                                 // success = false
    | NotFound                                               // success, found = false
    | FromAccount(user: User)                                // found, fromSystem = false
    | FromRegistry(citizen: Citizen, address: Option<string>) // found, fromSystem = true

  /** `citizen.CurrentHousehold?.Address`. */
  function HouseholdAddress(households: seq<HouseholdRegistry>, householdId: Option<int>): Option<string> {
    if householdId.None? then None
    else match FirstOrDefault(households, (h: HouseholdRegistry) => h.id == householdId.value)
      case None => None
      case Some(h) => Some(h.address)
  }

  /** `LookupSpouse`: the registry of citizens first, then the accounts. */
  function LookupSpouse(citizens: seq<Citizen>, households: seq<HouseholdRegistry>, users: seq<User>,
                        cccd: Option<string>): SpouseLookup
  {
    if cccd.None? || cccd.value == "" then NoCccd
    else match FindCitizen(citizens, cccd.value)
      case Some(c) => FromRegistry(c, HouseholdAddress(households, c.currentHouseholdId))
      case None =>
        match FindUser(users, cccd.value)
        case Some(u) => FromAccount(u)
        case None => NotFound
  }

  /**
   * A missing or empty CCCD is refused; the first citizen with the CCCD is
   * answered from the registry even when an account has it too, with the
   * address of the first household carrying its household id (none for a null
   * id or an id no household has); the first account with the CCCD answers only
   * when no citizen has it; otherwise nothing is found.
   */
  lemma LookupSpouseOrder(citizens: seq<Citizen>, households: seq<HouseholdRegistry>, users: seq<User>,
                          cccd: Option<string>)
    ensures var r := LookupSpouse(citizens, households, users, cccd);
      && (r.NoCccd? <==> cccd.None? || cccd.value == "")
      && (r.FromRegistry? <==> cccd.Some? && cccd.value != ""
                               && exists i | 0 <= i < |citizens| :: citizens[i].cccd == cccd.value)
      && (r.FromRegistry? ==>
            exists i | 0 <= i < |citizens| :: citizens[i] == r.citizen && citizens[i].cccd == cccd.value
              && forall j | 0 <= j < i :: citizens[j].cccd != cccd.value)
      && (r.FromRegistry? ==>
            (r.address.Some? <==>
               (r.citizen.currentHouseholdId.Some?
                && exists k | 0 <= k < |households| :: households[k].id == r.citizen.currentHouseholdId.value)))
      && (r.FromRegistry? && r.address.Some? ==>
            exists k | 0 <= k < |households| ::
              households[k].id == r.citizen.currentHouseholdId.value && households[k].address == r.address.value
              && forall j | 0 <= j < k :: households[j].id != r.citizen.currentHouseholdId.value)
      && (r.FromAccount? <==> cccd.Some? && cccd.value != ""
                              && (forall i | 0 <= i < |citizens| :: citizens[i].cccd != cccd.value)
                              && exists j | 0 <= j < |users| :: users[j].cccd == cccd)
      && (r.FromAccount? ==>
            exists i | 0 <= i < |users| :: users[i] == r.user && users[i].cccd == cccd
              && forall j | 0 <= j < i :: users[j].cccd != cccd)
  {
    if cccd.Some? && cccd.value != "" {
      var p := (c: Citizen) => c.cccd == cccd.value;
      var q := (u: User) => u.cccd == Some(cccd.value);
      var fc := FirstWhere(citizens, p);
      if fc.Some? {
        var c := citizens[fc.value];
        assert p(c);
        var hid := c.currentHouseholdId;
        if hid.Some? {
          var fh := FirstWhere(households, (h: HouseholdRegistry) => h.id == hid.value);
          if fh.Some? {
            assert households[fh.value].id == hid.value;
          }
        }
      }
      var fu := FirstWhere(users, q);
      if fu.Some? {
        assert q(users[fu.value]);
      }
    }
  }

  // ---------------------------------------------------------------------------
  // Submission
  // ---------------------------------------------------------------------------

  /** The ten form fields of a marriage application. */
  datatype MarriageForm = MarriageForm(
    applicantName: string, applicantCccd: string, applicantDob: string, applicantGender: string,
    applicantAddress: string,
    spouseName: string, spouseCccd: string, spouseDob: string, spouseGender: string, spouseAddress: string)

  /** The content document: the ten fields and the submission time stamp. */
  function FormContent(form: MarriageForm, submittedAt: string): Content {
    map["ApplicantName" := Some(form.applicantName), "ApplicantCCCD" := Some(form.applicantCccd),
        "ApplicantDOB" := Some(form.applicantDob), "ApplicantGender" := Some(form.applicantGender),
        "ApplicantAddress" := Some(form.applicantAddress),
        "SpouseName" := Some(form.spouseName), "SpouseCCCD" := Some(form.spouseCccd),
        "SpouseDOB" := Some(form.spouseDob), "SpouseGender" := Some(form.spouseGender),
        "SpouseAddress" := Some(form.spouseAddress),
        "SubmittedAt" := Some(submittedAt)]
  }

  /** The values the content document holds under the keys a signing reads. */
  lemma FormContentValues(form: MarriageForm, submittedAt: string)
    ensures var content := FormContent(form, submittedAt);
      && content["ApplicantCCCD"] == Some(form.applicantCccd) && content["SpouseCCCD"] == Some(form.spouseCccd)
      && content["ApplicantName"] == Some(form.applicantName)
      && content["ApplicantDOB"] == Some(form.applicantDob)
      && content["ApplicantGender"] == Some(form.applicantGender)
      && content["SpouseName"] == Some(form.spouseName)
      && content["SpouseDOB"] == Some(form.spouseDob)
      && content["SpouseGender"] == Some(form.spouseGender)
  {
  }

  /** The PIN rule: present, and at least four UTF-16 code units long. */
  predicate PinAccepted(pin: Option<string>) {
    !(pin.None? || pin.value == "" || Utf16Length(pin.value) < 4)
  }

  lemma PinRule(pin: Option<string>)
    ensures PinAccepted(pin) <==> pin.Some? && Utf16Length(pin.value) >= 4
  {
  }

  /** The status a submission starts in: awaiting the spouse when the spouse has an account. */
  function InitialStatus(spouseUser: Option<User>): ApplicationStatus {
    if spouseUser.Some? then AwaitingConfirmation else Submitted
  }

  /** The history note of the submission. */
  function SubmissionNote(awaitingSpouse: bool, spouseName: string): string {
    if awaitingSpouse then AwaitingNote + spouseName + ConfirmNote
    else OnlineNote
  }

  /** The request asking the spouse's account to confirm. */
  function SpouseRequest(appId: int, requesterId: string, target: User, spouseCccd: string, now: DateTime)
    : ConfirmationRequest
  {
    DefaultConfirmationRequest(now).(applicationId := appId, requesterId := requesterId,
                                     targetUserId := target.id, targetCccd := spouseCccd,
                                     requestType := RequestType)
  }

  /** When an account has the spouse's CCCD, one Pending request to it for the new application. */
  method RequestConfirmation(db: Db, id: int, requesterId: string, spouseUser: Option<User>, spouseCccd: string,
                             now: DateTime)
    requires db.Valid() && 1 <= id <= |db.applications|
    requires forall k | 0 <= k < |db.confirmations| :: db.confirmations[k].applicationId != id
    modifies db`confirmations
    ensures db.Valid()
    ensures db.confirmations == old(db.confirmations)
      + (if spouseUser.Some?
         then [SpouseRequest(id, requesterId, spouseUser.value, spouseCccd, now).(id := |old(db.confirmations)| + 1)]
         else [])
  {
    if spouseUser.Some? {
      db.SaveConfirmationRequest(SpouseRequest(id, requesterId, spouseUser.value, spouseCccd, now));
    }
  }

  /** GET `Create`: get-or-create of the marriage service, at 50 000 VND. */
  method Prepare(db: Db) returns (service: ServiceType)
    requires db.Valid()
    modifies db`serviceTypes
    ensures db.Valid()
    ensures db.serviceTypes == WithServiceType(old(db.serviceTypes), ServiceName, ServiceDescription, ServiceFee)
    ensures FindServiceType(db.serviceTypes, ServiceName) == Some(service)
    ensures old(FindServiceType(db.serviceTypes, ServiceName)).None? ==> service.fee == ServiceFee
  {
    service := db.GetOrCreateServiceType(ServiceName, ServiceDescription, ServiceFee);
    GetOrCreateIdempotent(old(db.serviceTypes), ServiceName, ServiceDescription, ServiceFee);
  }

  /**
   * POST `Create`: without a user, or with a PIN that fails the rule, nothing
   * happens. Otherwise one application, which awaits confirmation exactly when an
   * account has the spouse's CCCD; in that case, and only then, one Pending
   * request to that account; one attachment row per file; and one history
   * entry in the application's initial status.
   */
  method Create(db: Db, userId: Option<string>, serviceTypeId: int, form: MarriageForm, pin: Option<string>,
                fileNames: seq<string>, storedNames: seq<string>, submittedAt: string, now: DateTime)
    returns (r: Submission)
    requires db.Valid() && |storedNames| == |fileNames|
    modifies db`applications, db`confirmations, db`attachments, db`histories
    ensures db.Valid()
    ensures userId.None? ==> r == Unauthorized
    ensures userId.Some? && !PinAccepted(pin) ==> r == InvalidPin
    ensures !r.Created? ==> (db.applications == old(db.applications) && db.confirmations == old(db.confirmations)
      && db.attachments == old(db.attachments) && db.histories == old(db.histories))
    ensures r.Created? <==> userId.Some? && PinAccepted(pin)
    ensures r.Created? ==>
      var spouseUser := FindUser(db.users, form.spouseCccd);
      var status := InitialStatus(spouseUser);
      && r.id == |old(db.applications)| + 1
      && db.applications == old(db.applications) + [
           DefaultApplication(now).(id := r.id, citizenId := userId.value, serviceTypeId := serviceTypeId,
                                    content := FormContent(form, submittedAt), status := status)]
      && db.confirmations == old(db.confirmations)
           + (if spouseUser.Some?
              then [SpouseRequest(r.id, userId.value, spouseUser.value, form.spouseCccd, now)
                      .(id := |old(db.confirmations)| + 1)]
              else [])
      && db.attachments == old(db.attachments)
           + AttachmentRows(|old(db.attachments)|, r.id, fileNames, storedNames, DocumentType)
      && db.histories == old(db.histories)
           + [ApplicationHistory(|old(db.histories)| + 1, r.id, now, status,
                                 SubmissionNote(spouseUser.Some?, form.spouseName), userId.value)]
      && LastLoggedStatus(db.histories, r.id) == Some(status)
  {
    if userId.None? {
      return Unauthorized;
    }
    if !PinAccepted(pin) {
      return InvalidPin;
    }
    var spouseUser := FindUser(db.users, form.spouseCccd);
    var status := InitialStatus(spouseUser);
    var application := DefaultApplication(now).(citizenId := userId.value, serviceTypeId := serviceTypeId,
                                                 content := FormContent(form, submittedAt), status := status);
    var id := db.SaveNewApplication(application);
    forall k | 0 <= k < |db.confirmations| ensures db.confirmations[k].applicationId != id {
    }
    RequestConfirmation(db, id, userId.value, spouseUser, form.spouseCccd, now);
    db.SaveAttachments(id, fileNames, storedNames, DocumentType);
    var h := DefaultHistory(now).(applicationId := id, status := status,
                                  note := SubmissionNote(spouseUser.Some?, form.spouseName),
                                  changedById := userId.value);
    db.SaveHistory(h);
    LastLoggedAppend(old(db.histories), db.histories[|db.histories| - 1], id);
    r := Created(id);
  }
}
