/**
 * Temporary residence (Controllers/TemporaryResidenceController.cs): the
 * service type, the owner lookup, the advisory eligibility report, and the
 * applicant's submission.
 */
module ResidenceRegistration {
  import opened Wrappers
  import opened Calendar
  import opened Text
  import opened Linq
  import opened Entities
  import opened CitizenRecord
  import opened Store
  import opened Checks

  const ServiceName: string := "Đăng ký tạm trú"
  const ServiceDescription: string := "Đăng ký tạm trú cho công dân"
  const ServiceFee: int := 0
  const DocumentType: string := "TemporaryResidenceDoc"
  const SubmittedNote: string := "Hồ sơ đăng ký tạm trú đã được nộp trực tuyến"
  const OwnerNotice: string := ". Đã gửi yêu cầu xác nhận tới chủ nhà."

  // ---------------------------------------------------------------------------
  // Owner lookup
  // ---------------------------------------------------------------------------

  /** What `LookupOwner` answers. */
  datatype OwnerLookup =
    | NoCccd                       // success = false
    | OwnerCitizen(citizen: Citizen) // found, hasAccount = true
    | OwnerAccount(user: User)       // found, hasAccount = true
    | NoOwner                      // found = false, hasAccount = false

  /** The `found` and `hasAccount` flags of the answer, which are always equal: set for a match in either table. */
  function HasAccount(r: OwnerLookup): bool {
    r.OwnerCitizen? || r.OwnerAccount?
  }

  /** `LookupOwner`: the registry of citizens first, then the accounts. */
  function LookupOwner(citizens: seq<Citizen>, users: seq<User>, cccd: Option<string>): OwnerLookup {
    if cccd.None? || cccd.value == "" then NoCccd
    else match FindCitizen(citizens, cccd.value)
      case Some(c) => OwnerCitizen(c)
      case None =>
        match FindUser(users, cccd.value)
        case Some(u) => OwnerAccount(u)
        case None => NoOwner
  }

  /**
   * A missing or empty CCCD is refused; otherwise the owner is found, and said
   * to have an account, exactly when a citizen or an account has the CCCD,
   * the citizens being searched first; the answer is the first citizen, or
   * else the first account, with the CCCD.
   */
  lemma LookupOwnerOrder(citizens: seq<Citizen>, users: seq<User>, cccd: Option<string>)
    ensures var r := LookupOwner(citizens, users, cccd);
      && (r.NoCccd? <==> cccd.None? || cccd.value == "")
      && (r.OwnerCitizen? <==> cccd.Some? && cccd.value != ""
                               && exists i | 0 <= i < |citizens| :: citizens[i].cccd == cccd.value)
      && (r.OwnerAccount? <==> cccd.Some? && cccd.value != ""
                               && (forall i | 0 <= i < |citizens| :: citizens[i].cccd != cccd.value)
                               && exists j | 0 <= j < |users| :: users[j].cccd == cccd)
      && (r.OwnerCitizen? ==>
            exists i | 0 <= i < |citizens| :: citizens[i] == r.citizen && citizens[i].cccd == cccd.value
              && forall j | 0 <= j < i :: citizens[j].cccd != cccd.value)
      && (r.OwnerAccount? ==>
            exists i | 0 <= i < |users| :: users[i] == r.user && users[i].cccd == cccd
              && forall j | 0 <= j < i :: users[j].cccd != cccd)
      && (!r.NoCccd? ==> (HasAccount(r) <==>
            (exists i | 0 <= i < |citizens| :: citizens[i].cccd == cccd.value)
            || (exists j | 0 <= j < |users| :: users[j].cccd == cccd)))
  {
    if cccd.Some? && cccd.value != "" {
      var p := (c: Citizen) => c.cccd == cccd.value;
      var q := (u: User) => u.cccd == Some(cccd.value);
      var fc := FirstWhere(citizens, p);
      if fc.Some? {
        assert p(citizens[fc.value]);
      }
      var fu := FirstWhere(users, q);
      if fu.Some? {
        assert q(users[fu.value]);
      }
    }
  }

  // ---------------------------------------------------------------------------
  // Eligibility report
  // ---------------------------------------------------------------------------

  const CurrentResidenceCheck: string := "Tạm trú hiện tại"
  const CriminalRecordCheck: string := "Tiền án tiền sự"
  const CitizenRecordCheck: string := "Hồ sơ công dân"

  /** A residence of the applicant that is Active and ends strictly after now. */
  predicate InForce(t: TemporaryResidence, cccd: string, now: DateTime) {
    t.citizenCccd == cccd && t.status == Active && Before(now, t.endDate)
  }

  /** The first residence in force for the applicant, if any. */
  function ExistingRegistration(residences: seq<TemporaryResidence>, cccd: string, now: DateTime)
    : Option<TemporaryResidence>
  {
    FirstOrDefault(residences, (t: TemporaryResidence) => InForce(t, cccd, now))
  }

  /**
   * `VerifyEligibility`: a residence in force fails the first entry; the
   * criminal-record check is a stand-in that always passes; the registry
   * check passes either way, with a different message.
   */
  function VerifyEligibility(citizens: seq<Citizen>, residences: seq<TemporaryResidence>,
                             applicantCccd: string, now: DateTime): Report
  {
    var citizen := FindCitizen(citizens, applicantCccd);
    var existing := ExistingRegistration(residences, applicantCccd, now);
    var current :=
      if existing.Some? then
        Check(CurrentResidenceCheck, false, "Đang có đăng ký tạm trú tại: " + existing.value.address
                                            + ". Cần xóa tạm trú cũ trước khi đăng ký mới.")
      else Check(CurrentResidenceCheck, true, "Không có đăng ký tạm trú đang hiệu lực");
    var hasCriminalRecord := false;
    var criminal :=
      if hasCriminalRecord then Check(CriminalRecordCheck, false, "Có tiền án tiền sự - cần xác minh thêm")
      else Check(CriminalRecordCheck, true, "Không có tiền án tiền sự");
    var registry :=
      if citizen.Some? then Check(CitizenRecordCheck, true, "Có hồ sơ trong hệ thống quốc gia")
      else Check(CitizenRecordCheck, true, "Chưa có trong hệ thống (sẽ tạo mới khi duyệt)");
    Conclude([current, criminal, registry])
  }

  /**
   * The report has three entries in fixed order; only the first can fail, and
   * it fails exactly when the applicant has a residence in force; so
   * `allPassed` holds exactly when there is none.
   */
  lemma EligibilityMeaning(citizens: seq<Citizen>, residences: seq<TemporaryResidence>,
                           applicantCccd: string, now: DateTime)
    ensures var r := VerifyEligibility(citizens, residences, applicantCccd, now);
      var inForce := exists k | 0 <= k < |residences| :: InForce(residences[k], applicantCccd, now);
      && |r.results| == 3
      && r.results[0].check == CurrentResidenceCheck
      && r.results[1].check == CriminalRecordCheck
      && r.results[2].check == CitizenRecordCheck
      && (r.results[0].passed <==> !inForce)
      && r.results[1].passed && r.results[2].passed
      && (r.allPassed <==> !inForce)
  {
    var p := (t: TemporaryResidence) => InForce(t, applicantCccd, now);
    var existing := ExistingRegistration(residences, applicantCccd, now);
    if existing.None? {
      forall k | 0 <= k < |residences| ensures !p(residences[k]) {
      }
    } else {
      assert p(existing.value);
    }
  }

  // ---------------------------------------------------------------------------
  // Submission
  // ---------------------------------------------------------------------------

  /** `$"{addressDetail}, {ward}, {district}, {province}"`. */
  function FullAddress(addressDetail: string, ward: string, district: string, province: string): string {
    addressDetail + ", " + ward + ", " + district + ", " + province
  }

  /** Parts without commas can be read back from the full address. */
  lemma FullAddressInjective(a: string, b: string, c: string, d: string,
                             a': string, b': string, c': string, d': string)
    requires ',' !in a && ',' !in b && ',' !in c && ',' !in a' && ',' !in b' && ',' !in c'
    requires FullAddress(a, b, c, d) == FullAddress(a', b', c', d')
    ensures a == a' && b == b' && c == c' && d == d'
  {
    assert FullAddress(a, b, c, d) == a + ", " + (b + ", " + (c + ", " + d));
    assert FullAddress(a', b', c', d') == a' + ", " + (b' + ", " + (c' + ", " + d'));
    SplitAtComma(a, b + ", " + (c + ", " + d), a', b' + ", " + (c' + ", " + d'));
    SplitAtComma(b, c + ", " + d, b', c' + ", " + d');
    SplitAtComma(c, d, c', d');
  }

  /** The thirteen form fields of a temporary-residence application. */
  datatype ResidenceForm = ResidenceForm(
    registrationType: string, applicantName: string, applicantCccd: string, applicantPhone: string,
    province: string, district: string, ward: string, addressDetail: string,
    startDate: string, endDate: string, ownerName: string, ownerCccd: string, ownerPhone: string)

  /** The content document: the form fields, the full address and the submission time stamp. */
  function FormContent(form: ResidenceForm, submittedAt: string): Content {
    map["RegistrationType" := Some(form.registrationType), "ApplicantName" := Some(form.applicantName),
        "ApplicantCCCD" := Some(form.applicantCccd), "ApplicantPhone" := Some(form.applicantPhone),
        "Province" := Some(form.province), "District" := Some(form.district), "Ward" := Some(form.ward),
        "AddressDetail" := Some(form.addressDetail),
        "FullAddress" := Some(FullAddress(form.addressDetail, form.ward, form.district, form.province)),
        "StartDate" := Some(form.startDate), "EndDate" := Some(form.endDate),
        "OwnerName" := Some(form.ownerName), "OwnerCCCD" := Some(form.ownerCccd),
        "OwnerPhone" := Some(form.ownerPhone),
        "SubmittedAt" := Some(submittedAt)]
  }

  /** The values the content document holds under the keys a signing reads. */
  lemma FormContentValues(form: ResidenceForm, submittedAt: string)
    ensures var content := FormContent(form, submittedAt);
      && content["ApplicantCCCD"] == Some(form.applicantCccd)
      && content["ApplicantName"] == Some(form.applicantName)
      && content["ApplicantPhone"] == Some(form.applicantPhone)
      && content["Province"] == Some(form.province)
      && content["District"] == Some(form.district)
      && content["Ward"] == Some(form.ward)
      && content["FullAddress"] == Some(FullAddress(form.addressDetail, form.ward, form.district, form.province))
      && content["StartDate"] == Some(form.startDate)
      && content["EndDate"] == Some(form.endDate)
      && content["OwnerCCCD"] == Some(form.ownerCccd)
      && content["OwnerName"] == Some(form.ownerName)
      && content["OwnerPhone"] == Some(form.ownerPhone)
      && content["RegistrationType"] == Some(form.registrationType)
  {
  }

  /** The PIN rule: present, and at least four UTF-16 code units long. */
  predicate PinAccepted(pin: Option<string>) {
    !(pin.None? || pin.value == "" || Utf16Length(pin.value) < 4)
  }

  /** The history note: the notice to the owner is only words, added when the owner has an account. */
  function SubmissionNote(ownerHasAccount: bool): string {
    if ownerHasAccount then SubmittedNote + OwnerNotice else SubmittedNote
  }

  /** GET `Create`: get-or-create of the free temporary-residence service. */
  method Prepare(db: Db) returns (service: ServiceType)
    requires db.Valid()
    modifies db`serviceTypes
    ensures db.Valid()
    ensures db.serviceTypes == WithServiceType(old(db.serviceTypes), ServiceName, ServiceDescription, ServiceFee)
    ensures FindServiceType(db.serviceTypes, ServiceName) == Some(service)
    ensures old(FindServiceType(db.serviceTypes, ServiceName)).None? ==> service.fee == ServiceFee
  {
    service := db.GetOrCreateServiceType(ServiceName, ServiceDescription, ServiceFee);
    GetOrCreateIdempotent(old(db.serviceTypes), ServiceName, ServiceDescription, ServiceFee);
  }

  /**
   * POST `Create`: without a user, or with a PIN that fails the rule, nothing
   * happens. Otherwise one Submitted application, whether or not the owner has
   * an account (no confirmation request is made); one attachment row per file;
   * one Submitted history entry by the user.
   */
  method Create(db: Db, userId: Option<string>, serviceTypeId: int, form: ResidenceForm, pin: Option<string>,
                fileNames: seq<string>, storedNames: seq<string>, submittedAt: string, now: DateTime)
    returns (r: Submission)
    requires db.Valid() && |storedNames| == |fileNames|
    modifies db`applications, db`attachments, db`histories
    ensures db.Valid()
    ensures userId.None? ==> r == Unauthorized
    ensures userId.Some? && !PinAccepted(pin) ==> r == InvalidPin
    ensures r.Created? <==> userId.Some? && PinAccepted(pin)
    ensures !r.Created? ==> (db.applications == old(db.applications)
      && db.attachments == old(db.attachments) && db.histories == old(db.histories))
    ensures r.Created? ==>
      && r.id == |old(db.applications)| + 1
      && db.applications == old(db.applications) + [
           DefaultApplication(now).(id := r.id, citizenId := userId.value, serviceTypeId := serviceTypeId,
                                    content := FormContent(form, submittedAt), status := Submitted)]
      && db.attachments == old(db.attachments)
           + AttachmentRows(|old(db.attachments)|, r.id, fileNames, storedNames, DocumentType)
      && db.histories == old(db.histories)
           + [ApplicationHistory(|old(db.histories)| + 1, r.id, now, Submitted,
                                 SubmissionNote(FindUser(db.users, form.ownerCccd).Some?), userId.value)]
      && LastLoggedStatus(db.histories, r.id) == Some(Submitted)
  {
    if userId.None? {
      return Unauthorized;
    }
    if !PinAccepted(pin) {
      return InvalidPin;
    }
    var application := DefaultApplication(now).(citizenId := userId.value, serviceTypeId := serviceTypeId,
                                                 content := FormContent(form, submittedAt), status := Submitted);
    var id := db.SaveNewApplication(application);
    db.SaveAttachments(id, fileNames, storedNames, DocumentType);
    var ownerUser := FindUser(db.users, form.ownerCccd);
    var historyNote := SubmittedNote;
    if ownerUser.Some? {
      historyNote := historyNote + OwnerNotice;
    }
    db.SaveHistory(DefaultHistory(now).(applicationId := id, status := Submitted,
                                        note := historyNote, changedById := userId.value));
    LastLoggedAppend(old(db.histories), db.histories[|db.histories| - 1], id);
    r := Created(id);
  }
}
