/**
 * The chairman's actions (Controllers/ChairmanController.cs): the approval
 * queue, `Sign`, `Complete` and `Reject`, and the civil-registry records `Sign`
 * derives from a signed application's content document.
 *
 * None of the three actions inspects the current status. `Sign` saves the
 * Signed status and its history entry first; the derivation that follows runs
 * in a `try` whose `catch` swallows every failure, so a failed derivation is a
 * value (`Aborted`) that leaves the Signed status in place.
 */
module Chairman {
  import opened Wrappers
  import opened Calendar
  import opened Text
  import opened Linq
  import opened Entities
  import opened CitizenRecord
  import opened Store
  import BirthRegistration

  const SignNote: string := "Lãnh đạo đã ký duyệt hồ sơ"
  const CompleteNote: string := "Hồ sơ đã hoàn thành, sẵn sàng trả kết quả cho công dân"
  const RejectPrefix: string := "Lãnh đạo từ chối: "

  /** The service names `Sign` looks up to decide which record to derive. */
  const BirthService: string := "Đăng ký khai sinh"
  const MarriageService: string := "Đăng ký kết hôn"
  const ResidenceService: string := "Đăng ký tạm trú"

  const OnlineRegistrationPlace: string := "Hệ thống Dịch vụ Công trực tuyến"
  /** The province code of every generated citizen id. */
  const ProvinceCode: string := "001"

  /** Why a derivation stopped: the exception its `catch` swallows. */
  datatype DerivationError =
    | MissingField(key: string)   // `GetProperty` on a key the document lacks
    | BadDate(key: string)        // `DateTime.Parse` of a string that is not a date
    | DuplicateCccd(cccd: string) // the unique index on `Citizen.CCCD`

  datatype Derivation = NotApplicable | Derived | Aborted(error: DerivationError)

  datatype SignOutcome = NotFound | SignedWith(derivation: Derivation)

  function Outcome<T>(r: Result<T, DerivationError>): Derivation {
    if r.Success? then Derived else Aborted(r.error)
  }

  // ---------------------------------------------------------------------------
  // The approval queue
  // ---------------------------------------------------------------------------

  /** `Queue`: exactly the applications awaiting approval, newest first. */
  function Queue(apps: seq<Application>): (q: seq<Application>)
    ensures forall a :: multiset(q)[a] == if a.status == PendingApproval then multiset(apps)[a] else 0
    ensures SortedDescending(q, (a: Application) => a.createdDate)
  {
    WhereOrderedDescending(apps, (a: Application) => a.status == PendingApproval,
                           (a: Application) => a.createdDate)
  }

  // ---------------------------------------------------------------------------
  // Reading the content document
  // ---------------------------------------------------------------------------

  /** `formData.GetProperty(key).GetString()`. */
  function Field(content: Content, key: string): Result<Option<string>, DerivationError> {
    if key in content then Success(content[key]) else Failure(MissingField(key))
  }

  /**
   * `DateTime.Parse(formData.GetProperty(key).GetString() ?? fallback.ToString())`;
   * the fallback's own rendering is taken to parse back to it.
   */
  function DateField(content: Content, key: string, fallback: DateTime, parse: string -> Option<DateTime>)
    : Result<DateTime, DerivationError>
  {
    var v :- Field(content, key);
    if v.None? then Success(fallback)
    else if parse(v.value).None? then Failure(BadDate(key))
    else Success(parse(v.value).value)
  }

  /** The date field exists and is null or a string `DateTime.Parse` accepts. */
  predicate DateReadable(content: Content, key: string, parse: string -> Option<DateTime>) {
    key in content && (content[key].None? || parse(content[key].value).Some?)
  }

  /** The date a readable date field denotes. */
  function DateValue(content: Content, key: string, fallback: DateTime, parse: string -> Option<DateTime>)
    : DateTime
    requires DateReadable(content, key, parse)
  {
    if content[key].None? then fallback else parse(content[key].value).value
  }

  /** Every key of `keys` is in the document. */
  predicate Present(content: Content, keys: seq<string>) {
    forall i | 0 <= i < |keys| :: keys[i] in content
  }

  lemma PresentConcat(content: Content, a: seq<string>, b: seq<string>)
    ensures Present(content, a + b) <==> Present(content, a) && Present(content, b)
  {
    if Present(content, a) && Present(content, b) {
      forall i | 0 <= i < |a + b| ensures (a + b)[i] in content {
        if i >= |a| { assert (a + b)[i] == b[i - |a|]; }
      }
    }
    if Present(content, a + b) {
      forall i | 0 <= i < |a| ensures a[i] in content {
        assert (a + b)[i] == a[i];
      }
      forall i | 0 <= i < |b| ensures b[i] in content {
        assert (a + b)[|a| + i] == b[i];
      }
    }
  }

  /** `GetProperty(k).GetString()` for each key in turn: the values, or the first key missing. */
  function Fields(content: Content, keys: seq<string>): (r: Result<seq<Option<string>>, DerivationError>)
    ensures r.Success? <==> Present(content, keys)
    ensures r.Success? ==> |r.value| == |keys| && forall i | 0 <= i < |keys| :: r.value[i] == content[keys[i]]
    ensures r.Failure? ==> r.error.MissingField? && r.error.key in keys && r.error.key !in content
    decreases |keys|
  {
    if keys == [] then Success([])
    else
      var v :- Field(content, keys[0]);
      var rest :- Fields(content, keys[1..]);
      Success([v] + rest)
  }

  // ---------------------------------------------------------------------------
  // Registration numbers
  // ---------------------------------------------------------------------------

  /** `$"{prefix}-{year}-{id:D6}"`. */
  function RegistrationNumber(prefix: string, year: int, id: int): string {
    prefix + "-" + IntToString(year) + "-" + FormatD(id, 6)
  }

  /**
   * For an id below a million the number ends in exactly six digits that
   * spell the id, after the prefix, a dash, the year and a dash.
   */
  lemma RegistrationNumberLayout(prefix: string, year: int, id: int)
    requires year >= 0 && 0 <= id < 1000000
    ensures var n := RegistrationNumber(prefix, year, id);
      && |n| == |prefix| + |Decimal(year)| + 8
      && n[..|prefix| + 1] == prefix + "-"
      && n[|n| - 7] == '-'
      && AllDigits(n[|n| - 6..]) && ValueOf(n[|n| - 6..]) == id
  {
    var n := RegistrationNumber(prefix, year, id);
    assert Pow10(6) == 1000000;
    PaddedLength(id, 6);
    PaddedValue(id, 6);
    var pad := ZeroPad(Decimal(id), 6);
    assert n == (prefix + "-" + Decimal(year) + "-") + pad;
    assert n[|n| - 6..] == pad;
  }

  lemma RegistrationNumberParts(prefix: string, year: int, id: int)
    requires year >= 0 && id >= 0
    ensures RegistrationNumber(prefix, year, id) == prefix + "-" + (Decimal(year) + "-" + ZeroPad(Decimal(id), 6))
  {
    var d, t := Decimal(year), ZeroPad(Decimal(id), 6);
    assert IntToString(year) == d && FormatD(id, 6) == t;
    assert (prefix + "-" + d) + "-" == prefix + "-" + (d + "-");
    assert (prefix + "-" + (d + "-")) + t == prefix + "-" + (d + "-" + t);
  }

  /**
   * Distinct (prefix, year, id) triples give distinct numbers, so no two
   * applications signed under one prefix share a number.
   */
  lemma RegistrationNumberInjective(p1: string, y1: int, i1: int, p2: string, y2: int, i2: int)
    requires '-' !in p1 && '-' !in p2
    requires y1 >= 0 && y2 >= 0 && i1 >= 0 && i2 >= 0
    requires RegistrationNumber(p1, y1, i1) == RegistrationNumber(p2, y2, i2)
    ensures p1 == p2 && y1 == y2 && i1 == i2
  {
    var d1, d2 := Decimal(y1), Decimal(y2);
    var t1, t2 := ZeroPad(Decimal(i1), 6), ZeroPad(Decimal(i2), 6);
    RegistrationNumberParts(p1, y1, i1);
    RegistrationNumberParts(p2, y2, i2);
    SplitAtDash(p1, d1 + "-" + t1, p2, d2 + "-" + t2);
    DigitsHaveNoDash(d1);
    DigitsHaveNoDash(d2);
    SplitAtDash(d1, t1, d2, t2);
    DecimalValue(y1);
    DecimalValue(y2);
    PaddedInjective(i1, i2, 6);
  }

  // ---------------------------------------------------------------------------
  // Birth record
  // ---------------------------------------------------------------------------

  /** The fields the birth derivation reads, in the order it reads them. */
  const BirthKeysBeforeDate: seq<string> := ["Gender", "ChildFullName"]
  const BirthKeysAfterDate: seq<string> := ["PlaceOfBirth", "FatherCCCD", "FatherName", "MotherCCCD", "MotherName"]
  const BirthKeys: seq<string> := BirthKeysBeforeDate + ["DateOfBirth"] + BirthKeysAfterDate

  /**
   * `CreateBirthRecordFromApplication`: the record built from the content
   * document, or the first failure.
   */
  function BirthDerivation(content: Content, appId: int, signer: Option<string>, now: DateTime,
                           random: int, parse: string -> Option<DateTime>)
    : (r: Result<BirthRecord, DerivationError>)
    requires 100000 <= random < 999999
  {
    var before :- Fields(content, BirthKeysBeforeDate);
    var dob :- DateField(content, "DateOfBirth", now, parse);
    var after :- Fields(content, BirthKeysAfterDate);
    Success(DefaultBirthRecord(now).(
      registrationNumber := RegistrationNumber("KS", now.date.year, appId),
      generatedCitizenId := BirthRegistration.GenerateCitizenId(ProvinceCode, before[0].GetOr("Nam"), now.date.year, random),
      childFullName := before[1].GetOr(""),
      dateOfBirth := dob,
      placeOfBirth := after[0].GetOr(""),
      gender := before[0].GetOr(""),
      fatherCccd := after[1],
      fatherName := after[2],
      motherCccd := after[3],
      motherName := after[4],
      registrationDate := now,
      signedByChairmanId := signer,
      signedDate := Some(now)))
  }

  /**
   * The birth derivation succeeds exactly when the document has all eight
   * fields and its date of birth is null or parses; otherwise it names a
   * missing field or the unparsable date.
   */
  lemma BirthDerivationSucceeds(content: Content, appId: int, signer: Option<string>, now: DateTime,
                                random: int, parse: string -> Option<DateTime>)
    requires 100000 <= random < 999999
    ensures var r := BirthDerivation(content, appId, signer, now, random, parse);
      && (r.Success? <==> Present(content, BirthKeys) && DateReadable(content, "DateOfBirth", parse))
      && (r.Failure? ==>
            (r.error.MissingField? && r.error.key in BirthKeys && r.error.key !in content)
            || r.error == BadDate("DateOfBirth"))
  {
    PresentConcat(content, BirthKeysBeforeDate, ["DateOfBirth"]);
    PresentConcat(content, BirthKeysBeforeDate + ["DateOfBirth"], BirthKeysAfterDate);
  }

  // ---------------------------------------------------------------------------
  // Temporary residence record
  // ---------------------------------------------------------------------------

  /** The fields the residence derivation reads, in the order it reads them. */
  const ResidenceKeysBeforeDates: seq<string> :=
    ["ApplicantCCCD", "ApplicantName", "ApplicantPhone", "Province", "District", "Ward", "FullAddress"]
  const ResidenceKeysAfterDates: seq<string> := ["OwnerCCCD", "OwnerName", "OwnerPhone", "RegistrationType"]
  const ResidenceKeys: seq<string> := ResidenceKeysBeforeDates + ["StartDate", "EndDate"] + ResidenceKeysAfterDates

  /**
   * `CreateTemporaryResidenceFromApplication`: a null start date is today, a
   * null end date two years from today, a null registration type "New".
   */
  function ResidenceDerivation(content: Content, appId: int, signer: Option<string>, now: DateTime,
                               parse: string -> Option<DateTime>)
    : Result<TemporaryResidence, DerivationError>
  {
    var before :- Fields(content, ResidenceKeysBeforeDates);
    var start :- DateField(content, "StartDate", now, parse);
    var end :- DateField(content, "EndDate", AddYearsTo(now, 2), parse);
    var after :- Fields(content, ResidenceKeysAfterDates);
    Success(ResidenceRecord(before, start, end, after, appId, signer, now))
  }

  /** The residence record built from the fields read, in the order they are read. */
  function ResidenceRecord(before: seq<Option<string>>, start: DateTime, end: DateTime, after: seq<Option<string>>,
                           appId: int, signer: Option<string>, now: DateTime): TemporaryResidence
    requires |before| == |ResidenceKeysBeforeDates| && |after| == |ResidenceKeysAfterDates|
  {
    DefaultTemporaryResidence(now).(
      registrationNumber := RegistrationNumber("TT", now.date.year, appId),
      citizenCccd := before[0].GetOr(""),
      citizenName := before[1].GetOr(""),
      citizenPhone := before[2].GetOr(""),
      province := before[3].GetOr(""),
      district := before[4].GetOr(""),
      ward := before[5].GetOr(""),
      address := before[6].GetOr(""),
      startDate := start,
      endDate := end,
      ownerCccd := after[0].GetOr(""),
      ownerName := after[1].GetOr(""),
      ownerPhone := after[2].GetOr(""),
      registrationType := after[3].GetOr("New"),
      status := Active,
      signedByOfficialId := signer,
      signedDate := Some(now))
  }

  /**
   * The residence derivation succeeds exactly when the document has all
   * thirteen fields and both dates are null or parse.
   */
  lemma ResidenceDerivationSucceeds(content: Content, appId: int, signer: Option<string>, now: DateTime,
                                    parse: string -> Option<DateTime>)
    ensures var r := ResidenceDerivation(content, appId, signer, now, parse);
      && (r.Success? <==>
            && Present(content, ResidenceKeys)
            && DateReadable(content, "StartDate", parse) && DateReadable(content, "EndDate", parse))
      && (r.Failure? ==>
            (r.error.MissingField? && r.error.key in ResidenceKeys && r.error.key !in content)
            || r.error == BadDate("StartDate") || r.error == BadDate("EndDate"))
  {
    var r := ResidenceDerivation(content, appId, signer, now, parse);
    PresentConcat(content, ResidenceKeysBeforeDates, ["StartDate", "EndDate"]);
    PresentConcat(content, ResidenceKeysBeforeDates + ["StartDate", "EndDate"], ResidenceKeysAfterDates);
    var before := Fields(content, ResidenceKeysBeforeDates);
    if before.Success? {
      var start := DateField(content, "StartDate", now, parse);
      if start.Success? {
        var end := DateField(content, "EndDate", AddYearsTo(now, 2), parse);
        if end.Success? {
          var after := Fields(content, ResidenceKeysAfterDates);
          assert r.Success? == after.Success?;
          assert r.Failure? ==> r.error == after.error;
        } else {
          assert r == Failure(end.error);
        }
      } else {
        assert r == Failure(start.error);
      }
    } else {
      assert r == Failure(before.error);
    }
  }

  /**
   * A derived residence record takes each text field from the document (null
   * as empty, a null registration type as "New"), the dates as read, and is
   * Active and not yet confirmed by the owner.
   */
  lemma ResidenceRecordFields(content: Content, appId: int, signer: Option<string>, now: DateTime,
                              parse: string -> Option<DateTime>)
    ensures var r := ResidenceDerivation(content, appId, signer, now, parse);
      r.Success? ==>
        && r.value.registrationNumber == RegistrationNumber("TT", now.date.year, appId)
        && r.value.citizenCccd == content["ApplicantCCCD"].GetOr("")
        && r.value.citizenName == content["ApplicantName"].GetOr("")
        && r.value.citizenPhone == content["ApplicantPhone"].GetOr("")
        && r.value.province == content["Province"].GetOr("")
        && r.value.district == content["District"].GetOr("")
        && r.value.ward == content["Ward"].GetOr("")
        && r.value.address == content["FullAddress"].GetOr("")
        && r.value.startDate == DateValue(content, "StartDate", now, parse)
        && r.value.endDate == DateValue(content, "EndDate", AddYearsTo(now, 2), parse)
        && r.value.ownerCccd == content["OwnerCCCD"].GetOr("")
        && r.value.ownerName == content["OwnerName"].GetOr("")
        && r.value.ownerPhone == content["OwnerPhone"].GetOr("")
        && r.value.registrationType == content["RegistrationType"].GetOr("New")
        && r.value.status == Active && !r.value.ownerConfirmed
        && r.value.signedByOfficialId == signer
  {
    ResidenceDerivationSucceeds(content, appId, signer, now, parse);
  }

  // ---------------------------------------------------------------------------
  // Marriage record
  // ---------------------------------------------------------------------------

  /** `Citizens.FirstOrDefaultAsync(c => c.CCCD == cccd)` for a CCCD read from the document: null finds no one. */
  function FindParty(citizens: seq<Citizen>, cccd: Option<string>): (r: Option<Citizen>)
    ensures r.Some? ==> r.value in citizens && cccd == Some(r.value.cccd)
  {
    if cccd.None? then None else FindCitizen(citizens, cccd.value)
  }

  /**
   * The store as one party leaves it: the citizens, the ids whose marital
   * status the change tracker still has to write, and the party's citizen id.
   */
  datatype Step = Step(citizens: seq<Citizen>, pending: set<int>, spouseId: int)

  /** The two parties of a marriage application, and the form fields the derivation reads for each. */
  datatype Party = Applicant | Spouse {
    function NameKey(): string { if Applicant? then "ApplicantName" else "SpouseName" }
    function DobKey(): string { if Applicant? then "ApplicantDOB" else "SpouseDOB" }
    function GenderKey(): string { if Applicant? then "ApplicantGender" else "SpouseGender" }
  }

  /** The citizen row created for a party the registry does not know. */
  function NewParty(content: Content, role: Party, cccd: Option<string>, now: DateTime,
                    parse: string -> Option<DateTime>): Result<Citizen, DerivationError>
  {
    var name :- Field(content, role.NameKey());
    var dob :- DateField(content, role.DobKey(), now, parse);
    var gender :- Field(content, role.GenderKey());
    Success(DefaultCitizen().(cccd := cccd.GetOr(""), fullName := name.GetOr(""), dateOfBirth := dob,
                              gender := gender.GetOr(""), maritalStatus := Married))
  }

  /**
   * A new party is created exactly when the document has the party's name,
   * date of birth and gender and the date is null or parses; it then carries
   * the CCCD, the name and the gender (null as empty), the date read (today
   * for a null one) and the married status.
   */
  lemma NewPartyFields(content: Content, role: Party, cccd: Option<string>, now: DateTime,
                       parse: string -> Option<DateTime>)
    ensures var r := NewParty(content, role, cccd, now, parse);
      && (r.Success? <==>
            role.NameKey() in content && DateReadable(content, role.DobKey(), parse) && role.GenderKey() in content)
      && (r.Success? ==>
            && r.value.cccd == cccd.GetOr("")
            && r.value.fullName == content[role.NameKey()].GetOr("")
            && r.value.dateOfBirth == DateValue(content, role.DobKey(), now, parse)
            && r.value.gender == content[role.GenderKey()].GetOr("")
            && r.value.maritalStatus == Married)
  {
  }

  /**
   * One party of a marriage: a known citizen is marked married in the change
   * tracker; an unknown one is created as married and saved at once, which
   * also writes what was pending. A failure leaves `citizens` as it was.
   */
  function PartyStep(citizens: seq<Citizen>, pending: set<int>, found: Option<Citizen>, content: Content,
                     role: Party, cccd: Option<string>, now: DateTime, parse: string -> Option<DateTime>)
    : Result<Step, DerivationError>
  {
    if found.Some? then Success(Step(citizens, pending + {found.value.id}, found.value.id))
    else
      var c :- NewParty(content, role, cccd, now, parse);
      if FindCitizen(citizens, c.cccd).Some? then Failure(DuplicateCccd(c.cccd))
      else Success(Step(ApplyMarried(citizens, pending) + [c.(id := |citizens| + 1)], {}, |citizens| + 1))
  }

  function MarriageRecordFor(appId: int, spouse1Id: int, spouse2Id: int, now: DateTime): MarriageRecord {
    DefaultMarriageRecord(now).(
      registrationNumber := RegistrationNumber("KH", now.date.year, appId),
      spouse1Id := spouse1Id,
      spouse2Id := spouse2Id,
      marriageDate := now,
      registrationPlace := OnlineRegistrationPlace,
      status := Active,
      createdDate := now)
  }

  /** The citizens and marriages tables after the marriage derivation, and how it ended. */
  datatype MarriageEffect = MarriageEffect(citizens: seq<Citizen>, marriages: seq<MarriageRecord>, outcome: Derivation)

  /**
   * `CreateMarriageRecordFromApplication`. Both parties are looked up before
   * either is created. A party created at the first save point stays when the
   * second party fails.
   */
  function MarriageDerivation(citizens: seq<Citizen>, marriages: seq<MarriageRecord>, content: Content,
                              appId: int, now: DateTime, parse: string -> Option<DateTime>): MarriageEffect
  {
    var f1 := Field(content, "ApplicantCCCD");
    if f1.Failure? then MarriageEffect(citizens, marriages, Aborted(f1.error)) else
    var f2 := Field(content, "SpouseCCCD");
    if f2.Failure? then MarriageEffect(citizens, marriages, Aborted(f2.error)) else
    MarryParties(citizens, marriages, content, appId, f1.value, f2.value, now, parse)
  }

  /** The marriage derivation once both CCCDs are read: both lookups come before the first party is saved. */
  function MarryParties(citizens: seq<Citizen>, marriages: seq<MarriageRecord>, content: Content, appId: int,
                        cccd1: Option<string>, cccd2: Option<string>, now: DateTime,
                        parse: string -> Option<DateTime>): MarriageEffect
  {
    var s1 := PartyStep(citizens, {}, FindParty(citizens, cccd1), content, Applicant, cccd1, now, parse);
    if s1.Failure? then MarriageEffect(citizens, marriages, Aborted(s1.error))
    else MarrySpouse(s1.value, marriages, content, appId, FindParty(citizens, cccd2), cccd2, now, parse)
  }

  /** The marriage derivation after the first party: a failure keeps what the first party saved. */
  function MarrySpouse(s1: Step, marriages: seq<MarriageRecord>, content: Content, appId: int,
                       spouse2: Option<Citizen>, cccd2: Option<string>, now: DateTime,
                       parse: string -> Option<DateTime>): MarriageEffect
  {
    var s2 := PartyStep(s1.citizens, s1.pending, spouse2, content, Spouse, cccd2, now, parse);
    if s2.Failure? then MarriageEffect(s1.citizens, marriages, Aborted(s2.error)) else
    var m := MarriageRecordFor(appId, s1.spouseId, s2.value.spouseId, now);
    MarriageEffect(ApplyMarried(s2.value.citizens, s2.value.pending), marriages + [m.(id := |marriages| + 1)], Derived)
  }

  // ---------------------------------------------------------------------------
  // Properties of the marriage derivation
  // ---------------------------------------------------------------------------

  /** The party fields of one spouse are present and readable. */
  predicate PartyReadable(content: Content, role: Party, parse: string -> Option<DateTime>) {
    role.NameKey() in content && DateReadable(content, role.DobKey(), parse) && role.GenderKey() in content
  }

  /** A party step keeps every row it does not mark, marks found parties, and appends at most the new party. */
  lemma PartyStepShape(citizens: seq<Citizen>, pending: set<int>, found: Option<Citizen>, content: Content,
                       role: Party, cccd: Option<string>, now: DateTime, parse: string -> Option<DateTime>)
    requires CitizenIds(citizens) && UniqueCccd(citizens)
    requires found.Some? ==> 1 <= found.value.id <= |citizens|
    requires forall i | i in pending :: 1 <= i <= |citizens|
    ensures var r := PartyStep(citizens, pending, found, content, role, cccd, now, parse);
      r.Success? ==>
        && CitizenIds(r.value.citizens) && UniqueCccd(r.value.citizens)
        && 1 <= r.value.spouseId <= |r.value.citizens|
        && (forall i | i in r.value.pending :: 1 <= i <= |r.value.citizens|)
        && (found.Some? ==> r.value.citizens == citizens && r.value.spouseId == found.value.id
                            && r.value.pending == pending + {found.value.id})
        && (found.None? ==> r.value.citizens == ApplyMarried(citizens, pending) + [r.value.citizens[|citizens|]]
                            && r.value.spouseId == |citizens| + 1 && r.value.pending == {}
                            && r.value.citizens[|citizens|].cccd == cccd.GetOr("")
                            && r.value.citizens[|citizens|].maritalStatus == Married)
  {
    if found.None? && PartyStep(citizens, pending, found, content, role, cccd, now, parse).Success? {
      var c := UnknownPartyStep(citizens, pending, content, role, cccd, now, parse);
      AppendCitizen(citizens, pending, c);
    }
  }

  /** A party the registry does not know is, on success, created with the document's CCCD, married, as row n + 1. */
  lemma UnknownPartyStep(citizens: seq<Citizen>, pending: set<int>, content: Content, role: Party,
                         cccd: Option<string>, now: DateTime, parse: string -> Option<DateTime>) returns (c: Citizen)
    requires PartyStep(citizens, pending, None, content, role, cccd, now, parse).Success?
    ensures c.id == |citizens| + 1 && c.cccd == cccd.GetOr("") && c.maritalStatus == Married
    ensures FindCitizen(citizens, c.cccd).None?
    ensures PartyStep(citizens, pending, None, content, role, cccd, now, parse)
      == Success(Step(ApplyMarried(citizens, pending) + [c], {}, |citizens| + 1))
  {
    c := NewParty(content, role, cccd, now, parse).value.(id := |citizens| + 1);
  }

  /** With both CCCDs read, the derivation goes on as `MarryParties`. */
  lemma DerivationReadsBoth(citizens: seq<Citizen>, marriages: seq<MarriageRecord>, content: Content,
                            appId: int, now: DateTime, parse: string -> Option<DateTime>)
    requires "ApplicantCCCD" in content && "SpouseCCCD" in content
    ensures MarriageDerivation(citizens, marriages, content, appId, now, parse)
      == MarryParties(citizens, marriages, content, appId, content["ApplicantCCCD"], content["SpouseCCCD"], now, parse)
  {
  }

  /** A known applicant is only marked, in the change tracker. */
  lemma KnownApplicant(citizens: seq<Citizen>, marriages: seq<MarriageRecord>, content: Content, appId: int,
                       cccd1: Option<string>, cccd2: Option<string>, now: DateTime,
                       parse: string -> Option<DateTime>, k1: int)
    requires 0 <= k1 < |citizens| && FindParty(citizens, cccd1) == Some(citizens[k1]) && citizens[k1].id == k1 + 1
    ensures MarryParties(citizens, marriages, content, appId, cccd1, cccd2, now, parse)
      == MarrySpouse(Step(citizens, {k1 + 1}, k1 + 1), marriages, content, appId, FindParty(citizens, cccd2), cccd2,
                     now, parse)
  {
    assert {} + {k1 + 1} == {k1 + 1};
  }

  /** An unknown applicant of a marriage that goes through is saved at once, as row n + 1. */
  lemma UnknownApplicant(citizens: seq<Citizen>, marriages: seq<MarriageRecord>, content: Content, appId: int,
                         cccd1: Option<string>, cccd2: Option<string>, now: DateTime,
                         parse: string -> Option<DateTime>) returns (c: Citizen)
    requires FindParty(citizens, cccd1).None?
    requires MarryParties(citizens, marriages, content, appId, cccd1, cccd2, now, parse).outcome == Derived
    ensures c.id == |citizens| + 1 && c.cccd == cccd1.GetOr("") && c.maritalStatus == Married
    ensures MarryParties(citizens, marriages, content, appId, cccd1, cccd2, now, parse)
      == MarrySpouse(Step(citizens + [c], {}, |citizens| + 1), marriages, content, appId, FindParty(citizens, cccd2),
                     cccd2, now, parse)
  {
    assert PartyStep(citizens, {}, None, content, Applicant, cccd1, now, parse).Success?;
    c := UnknownPartyStep(citizens, {}, content, Applicant, cccd1, now, parse);
    ApplyNothing(citizens);
  }

  /** A known spouse is marked too, and the record is written with everything pending. */
  lemma KnownSpouse(s1: Step, marriages: seq<MarriageRecord>, content: Content, appId: int, spouse: Citizen,
                    cccd2: Option<string>, now: DateTime, parse: string -> Option<DateTime>)
    ensures MarrySpouse(s1, marriages, content, appId, Some(spouse), cccd2, now, parse)
      == MarriageEffect(ApplyMarried(s1.citizens, s1.pending + {spouse.id}),
                        marriages + [MarriageRecordFor(appId, s1.spouseId, spouse.id, now).(id := |marriages| + 1)],
                        Derived)
  {
  }

  /** An unknown spouse of a marriage that goes through is saved as the next row, then the record is written. */
  lemma UnknownSpouse(s1: Step, marriages: seq<MarriageRecord>, content: Content, appId: int,
                      cccd2: Option<string>, now: DateTime, parse: string -> Option<DateTime>) returns (c: Citizen)
    requires MarrySpouse(s1, marriages, content, appId, None, cccd2, now, parse).outcome == Derived
    ensures c.id == |s1.citizens| + 1 && c.cccd == cccd2.GetOr("") && c.maritalStatus == Married
    ensures MarrySpouse(s1, marriages, content, appId, None, cccd2, now, parse)
      == MarriageEffect(ApplyMarried(s1.citizens, s1.pending) + [c],
                        marriages + [MarriageRecordFor(appId, s1.spouseId, |s1.citizens| + 1, now)
                                       .(id := |marriages| + 1)],
                        Derived)
  {
    assert PartyStep(s1.citizens, s1.pending, None, content, Spouse, cccd2, now, parse).Success?;
    c := UnknownPartyStep(s1.citizens, s1.pending, content, Spouse, cccd2, now, parse);
    ApplyNothing(ApplyMarried(s1.citizens, s1.pending) + [c]);
  }

  /** The marriages table gains exactly one record, Active, never divorced and numbered "KH-<year>-<id>". */
  predicate RecordAppended(marriages: seq<MarriageRecord>, after: seq<MarriageRecord>, appId: int, now: DateTime) {
    && |after| == |marriages| + 1 && after[..|marriages|] == marriages
    && after[|marriages|].status == Active && after[|marriages|].divorceDate.None?
    && after[|marriages|].registrationNumber == RegistrationNumber("KH", now.date.year, appId)
  }

  /** The citizen with id `id` exists, carries the CCCD read from the document and is married. */
  predicate MarriedParty(citizens: seq<Citizen>, id: int, cccd: Option<string>) {
    1 <= id <= |citizens| && citizens[id - 1].cccd == cccd.GetOr("") && citizens[id - 1].maritalStatus == Married
  }

  /** `added` rows follow the earlier ones, which are as they were save that `id1` and `id2` are now married. */
  predicate RowsKept(citizens: seq<Citizen>, after: seq<Citizen>, id1: int, id2: int, added: nat) {
    && |after| == |citizens| + added
    && forall k | 0 <= k < |citizens| ::
         after[k] == if citizens[k].id == id1 || citizens[k].id == id2
                     then citizens[k].(maritalStatus := Married) else citizens[k]
  }

  /**
   * What a successful marriage derivation leaves: exactly one more record,
   * Active and numbered "KH-<year>-<id>", whose spouses are the citizens with
   * the document's two CCCDs, both married; a new row for each party the
   * registry did not know; every earlier row as it was, save that the two
   * spouses are now married.
   */
  predicate MarriageRecorded(citizens: seq<Citizen>, marriages: seq<MarriageRecord>, content: Content,
                             appId: int, now: DateTime, e: MarriageEffect)
  {
    && "ApplicantCCCD" in content && "SpouseCCCD" in content
    && RecordAppended(marriages, e.marriages, appId, now)
    && var m := e.marriages[|marriages|];
       && MarriedParty(e.citizens, m.spouse1Id, content["ApplicantCCCD"])
       && MarriedParty(e.citizens, m.spouse2Id, content["SpouseCCCD"])
       && RowsKept(citizens, e.citizens, m.spouse1Id, m.spouse2Id,
                   (if FindParty(citizens, content["ApplicantCCCD"]).None? then 1 else 0)
                   + (if FindParty(citizens, content["SpouseCCCD"]).None? then 1 else 0))
  }

  /** The index of a citizen found by CCCD is one less than its id. */
  lemma FoundAt(citizens: seq<Citizen>, cccd: Option<string>) returns (k: int)
    requires CitizenIds(citizens) && FindParty(citizens, cccd).Some?
    ensures 0 <= k < |citizens| && citizens[k] == FindParty(citizens, cccd).value
    ensures citizens[k].id == k + 1 && cccd == Some(citizens[k].cccd)
  {
    k :| 0 <= k < |citizens| && citizens[k] == FindParty(citizens, cccd).value;
  }

  /** The record the derivation writes is appended as `RecordAppended` says, between the two given ids. */
  lemma RecordForAppended(marriages: seq<MarriageRecord>, appId: int, id1: int, id2: int, now: DateTime)
    ensures var after := marriages + [MarriageRecordFor(appId, id1, id2, now).(id := |marriages| + 1)];
      && RecordAppended(marriages, after, appId, now)
      && after[|marriages|].spouse1Id == id1 && after[|marriages|].spouse2Id == id2
  {
    var after := marriages + [MarriageRecordFor(appId, id1, id2, now).(id := |marriages| + 1)];
    assert after[..|marriages|] == marriages;
  }

  /** Both parties known: the record joins them, both are married, and no row is added. */
  lemma BothKnownRecorded(
    citizens: seq<Citizen>, marriages: seq<MarriageRecord>, content: Content,
    appId: int, now: DateTime, k1: int, k2: int)
    requires CitizenIds(citizens) && 0 <= k1 < |citizens| && 0 <= k2 < |citizens|
    requires "ApplicantCCCD" in content && content["ApplicantCCCD"] == Some(citizens[k1].cccd)
    requires "SpouseCCCD" in content && content["SpouseCCCD"] == Some(citizens[k2].cccd)
    requires FindParty(citizens, content["ApplicantCCCD"]).Some? && FindParty(citizens, content["SpouseCCCD"]).Some?
    ensures MarriageRecorded(citizens, marriages, content, appId, now,
      MarriageEffect(ApplyMarried(citizens, {k1 + 1, k2 + 1}),
                     marriages + [MarriageRecordFor(appId, k1 + 1, k2 + 1, now).(id := |marriages| + 1)], Derived))
  {
    RecordForAppended(marriages, appId, k1 + 1, k2 + 1, now);
    var after := ApplyMarried(citizens, {k1 + 1, k2 + 1});
    assert MarriedParty(after, k1 + 1, content["ApplicantCCCD"]);
    assert MarriedParty(after, k2 + 1, content["SpouseCCCD"]);
    assert RowsKept(citizens, after, k1 + 1, k2 + 1, 0);
  }

  lemma MarriageBothKnown(
    citizens: seq<Citizen>, marriages: seq<MarriageRecord>, content: Content,
    appId: int, now: DateTime, parse: string -> Option<DateTime>)
    requires CitizenIds(citizens) && "ApplicantCCCD" in content && "SpouseCCCD" in content
    requires FindParty(citizens, content["ApplicantCCCD"]).Some?
    requires FindParty(citizens, content["SpouseCCCD"]).Some?
    ensures MarriageRecorded(citizens, marriages, content, appId, now,
                             MarriageDerivation(citizens, marriages, content, appId, now, parse))
  {
    var f1, f2 := content["ApplicantCCCD"], content["SpouseCCCD"];
    DerivationReadsBoth(citizens, marriages, content, appId, now, parse);
    var k1 := FoundAt(citizens, f1);
    var k2 := FoundAt(citizens, f2);
    KnownApplicant(citizens, marriages, content, appId, f1, f2, now, parse, k1);
    KnownSpouse(Step(citizens, {k1 + 1}, k1 + 1), marriages, content, appId, citizens[k2], f2, now, parse);
    assert {k1 + 1} + {k2 + 1} == {k1 + 1, k2 + 1};
    BothKnownRecorded(citizens, marriages, content, appId, now, k1, k2);
  }

  /** Applicant known, spouse new: the record joins them, both are married, and the spouse's row is added. */
  lemma SpouseUnknownRecorded(
    citizens: seq<Citizen>, marriages: seq<MarriageRecord>, content: Content,
    appId: int, now: DateTime, k1: int, c: Citizen)
    requires CitizenIds(citizens) && 0 <= k1 < |citizens|
    requires "ApplicantCCCD" in content && content["ApplicantCCCD"] == Some(citizens[k1].cccd)
    requires "SpouseCCCD" in content && c.cccd == content["SpouseCCCD"].GetOr("") && c.maritalStatus == Married
    requires FindParty(citizens, content["ApplicantCCCD"]).Some? && FindParty(citizens, content["SpouseCCCD"]).None?
    ensures MarriageRecorded(citizens, marriages, content, appId, now,
      MarriageEffect(ApplyMarried(citizens, {k1 + 1}) + [c],
                     marriages + [MarriageRecordFor(appId, k1 + 1, |citizens| + 1, now).(id := |marriages| + 1)],
                     Derived))
  {
    var n := |citizens|;
    RecordForAppended(marriages, appId, k1 + 1, n + 1, now);
    var after := ApplyMarried(citizens, {k1 + 1}) + [c];
    assert MarriedParty(after, k1 + 1, content["ApplicantCCCD"]);
    assert MarriedParty(after, n + 1, content["SpouseCCCD"]);
    assert RowsKept(citizens, after, k1 + 1, n + 1, 1);
  }

  lemma MarriageSpouseUnknown(
    citizens: seq<Citizen>, marriages: seq<MarriageRecord>, content: Content,
    appId: int, now: DateTime, parse: string -> Option<DateTime>)
    requires CitizenIds(citizens) && "ApplicantCCCD" in content && "SpouseCCCD" in content
    requires FindParty(citizens, content["ApplicantCCCD"]).Some?
    requires FindParty(citizens, content["SpouseCCCD"]).None?
    requires MarriageDerivation(citizens, marriages, content, appId, now, parse).outcome == Derived
    ensures MarriageRecorded(citizens, marriages, content, appId, now,
                             MarriageDerivation(citizens, marriages, content, appId, now, parse))
  {
    var f1, f2 := content["ApplicantCCCD"], content["SpouseCCCD"];
    DerivationReadsBoth(citizens, marriages, content, appId, now, parse);
    var k1 := FoundAt(citizens, f1);
    KnownApplicant(citizens, marriages, content, appId, f1, f2, now, parse, k1);
    var c := UnknownSpouse(Step(citizens, {k1 + 1}, k1 + 1), marriages, content, appId, f2, now, parse);
    SpouseUnknownRecorded(citizens, marriages, content, appId, now, k1, c);
  }

  /** Applicant new, spouse known: the record joins them, both are married, and the applicant's row is added. */
  lemma ApplicantUnknownRecorded(
    citizens: seq<Citizen>, marriages: seq<MarriageRecord>, content: Content,
    appId: int, now: DateTime, c: Citizen, k2: int)
    requires CitizenIds(citizens) && 0 <= k2 < |citizens|
    requires "SpouseCCCD" in content && content["SpouseCCCD"] == Some(citizens[k2].cccd)
    requires "ApplicantCCCD" in content && c.cccd == content["ApplicantCCCD"].GetOr("") && c.maritalStatus == Married
    requires c.id == |citizens| + 1
    requires FindParty(citizens, content["ApplicantCCCD"]).None? && FindParty(citizens, content["SpouseCCCD"]).Some?
    ensures MarriageRecorded(citizens, marriages, content, appId, now,
      MarriageEffect(ApplyMarried(citizens + [c], {k2 + 1}),
                     marriages + [MarriageRecordFor(appId, |citizens| + 1, k2 + 1, now).(id := |marriages| + 1)],
                     Derived))
  {
    var n := |citizens|;
    RecordForAppended(marriages, appId, n + 1, k2 + 1, now);
    var after := ApplyMarried(citizens + [c], {k2 + 1});
    assert after[n] == c;
    assert MarriedParty(after, n + 1, content["ApplicantCCCD"]);
    assert MarriedParty(after, k2 + 1, content["SpouseCCCD"]);
    assert RowsKept(citizens, after, n + 1, k2 + 1, 1);
  }

  lemma MarriageApplicantUnknown(
    citizens: seq<Citizen>, marriages: seq<MarriageRecord>, content: Content,
    appId: int, now: DateTime, parse: string -> Option<DateTime>)
    requires CitizenIds(citizens) && "ApplicantCCCD" in content && "SpouseCCCD" in content
    requires FindParty(citizens, content["ApplicantCCCD"]).None?
    requires FindParty(citizens, content["SpouseCCCD"]).Some?
    requires MarriageDerivation(citizens, marriages, content, appId, now, parse).outcome == Derived
    ensures MarriageRecorded(citizens, marriages, content, appId, now,
                             MarriageDerivation(citizens, marriages, content, appId, now, parse))
  {
    var f1, f2 := content["ApplicantCCCD"], content["SpouseCCCD"];
    DerivationReadsBoth(citizens, marriages, content, appId, now, parse);
    var c := UnknownApplicant(citizens, marriages, content, appId, f1, f2, now, parse);
    var k2 := FoundAt(citizens, f2);
    KnownSpouse(Step(citizens + [c], {}, |citizens| + 1), marriages, content, appId, citizens[k2], f2, now, parse);
    assert {} + {k2 + 1} == {k2 + 1};
    ApplicantUnknownRecorded(citizens, marriages, content, appId, now, c, k2);
  }

  /** Both parties new: the record joins the two added rows, both married. */
  lemma BothUnknownRecorded(
    citizens: seq<Citizen>, marriages: seq<MarriageRecord>, content: Content,
    appId: int, now: DateTime, c1: Citizen, c2: Citizen)
    requires CitizenIds(citizens)
    requires "ApplicantCCCD" in content && c1.cccd == content["ApplicantCCCD"].GetOr("") && c1.maritalStatus == Married
    requires "SpouseCCCD" in content && c2.cccd == content["SpouseCCCD"].GetOr("") && c2.maritalStatus == Married
    requires FindParty(citizens, content["ApplicantCCCD"]).None? && FindParty(citizens, content["SpouseCCCD"]).None?
    ensures MarriageRecorded(citizens, marriages, content, appId, now,
      MarriageEffect(citizens + [c1] + [c2],
                     marriages + [MarriageRecordFor(appId, |citizens| + 1, |citizens| + 2, now).(id := |marriages| + 1)],
                     Derived))
  {
    var n := |citizens|;
    RecordForAppended(marriages, appId, n + 1, n + 2, now);
    var after := citizens + [c1] + [c2];
    assert after[n] == c1 && after[n + 1] == c2;
    assert MarriedParty(after, n + 1, content["ApplicantCCCD"]);
    assert MarriedParty(after, n + 2, content["SpouseCCCD"]);
    assert RowsKept(citizens, after, n + 1, n + 2, 2);
  }

  lemma MarriageBothUnknown(
    citizens: seq<Citizen>, marriages: seq<MarriageRecord>, content: Content,
    appId: int, now: DateTime, parse: string -> Option<DateTime>)
    requires CitizenIds(citizens) && "ApplicantCCCD" in content && "SpouseCCCD" in content
    requires FindParty(citizens, content["ApplicantCCCD"]).None?
    requires FindParty(citizens, content["SpouseCCCD"]).None?
    requires MarriageDerivation(citizens, marriages, content, appId, now, parse).outcome == Derived
    ensures MarriageRecorded(citizens, marriages, content, appId, now,
                             MarriageDerivation(citizens, marriages, content, appId, now, parse))
  {
    var f1, f2 := content["ApplicantCCCD"], content["SpouseCCCD"];
    DerivationReadsBoth(citizens, marriages, content, appId, now, parse);
    var c1 := UnknownApplicant(citizens, marriages, content, appId, f1, f2, now, parse);
    var c2 := UnknownSpouse(Step(citizens + [c1], {}, |citizens| + 1), marriages, content, appId, f2, now, parse);
    ApplyNothing(citizens + [c1]);
    BothUnknownRecorded(citizens, marriages, content, appId, now, c1, c2);
  }

  /** A marriage derivation that succeeds leaves the registry as `MarriageRecorded` describes. */
  lemma MarriageDerived(citizens: seq<Citizen>, marriages: seq<MarriageRecord>, content: Content,
                        appId: int, now: DateTime, parse: string -> Option<DateTime>)
    requires CitizenIds(citizens)
    ensures var e := MarriageDerivation(citizens, marriages, content, appId, now, parse);
      e.outcome == Derived ==> MarriageRecorded(citizens, marriages, content, appId, now, e)
  {
    var e := MarriageDerivation(citizens, marriages, content, appId, now, parse);
    if e.outcome == Derived {
      assert "ApplicantCCCD" in content && "SpouseCCCD" in content;
      var known1 := FindParty(citizens, content["ApplicantCCCD"]).Some?;
      var known2 := FindParty(citizens, content["SpouseCCCD"]).Some?;
      if known1 && known2 {
        MarriageBothKnown(citizens, marriages, content, appId, now, parse);
      } else if known1 {
        MarriageSpouseUnknown(citizens, marriages, content, appId, now, parse);
      } else if known2 {
        MarriageApplicantUnknown(citizens, marriages, content, appId, now, parse);
      } else {
        MarriageBothUnknown(citizens, marriages, content, appId, now, parse);
      }
    }
  }

  /**
   * A marriage derivation that aborts adds no marriage record; the citizens
   * table is unchanged except for a new first party saved before the failure.
   */
  lemma MarriageAborted(citizens: seq<Citizen>, marriages: seq<MarriageRecord>, content: Content,
                        appId: int, now: DateTime, parse: string -> Option<DateTime>)
    ensures var e := MarriageDerivation(citizens, marriages, content, appId, now, parse);
      e.outcome.Aborted? ==>
        && e.marriages == marriages
        && (e.citizens == citizens
            || (&& |e.citizens| == |citizens| + 1 && e.citizens[..|citizens|] == citizens
                && "ApplicantCCCD" in content
                && FindParty(citizens, content["ApplicantCCCD"]).None?
                && e.citizens[|citizens|].cccd == content["ApplicantCCCD"].GetOr("")))
  {
    var e := MarriageDerivation(citizens, marriages, content, appId, now, parse);
    if e.outcome.Aborted? && "ApplicantCCCD" in content && "SpouseCCCD" in content {
      var spouse1 := FindParty(citizens, content["ApplicantCCCD"]);
      var s1 := PartyStep(citizens, {}, spouse1, content, Applicant, content["ApplicantCCCD"], now, parse);
      if s1.Success? && spouse1.None? {
        assert ApplyMarried(citizens, {}) == citizens;
      }
    }
  }

  /**
   * The derivation is not atomic: when both parties carry the same CCCD and
   * the registry knows neither, the first is saved, the second hits the
   * unique index, and no marriage record is written.
   */
  lemma SameUnknownCccd(citizens: seq<Citizen>, marriages: seq<MarriageRecord>, content: Content,
                        appId: int, now: DateTime, parse: string -> Option<DateTime>, cccd: string)
    requires "ApplicantCCCD" in content && content["ApplicantCCCD"] == Some(cccd)
    requires "SpouseCCCD" in content && content["SpouseCCCD"] == Some(cccd)
    requires FindCitizen(citizens, cccd).None?
    requires PartyReadable(content, Applicant, parse) && PartyReadable(content, Spouse, parse)
    ensures var e := MarriageDerivation(citizens, marriages, content, appId, now, parse);
      && e.outcome == Aborted(DuplicateCccd(cccd))
      && e.marriages == marriages
      && |e.citizens| == |citizens| + 1 && e.citizens[..|citizens|] == citizens
      && e.citizens[|citizens|].cccd == cccd && e.citizens[|citizens|].maritalStatus == Married
  {
    var s1 := PartyStep(citizens, {}, None, content, Applicant, Some(cccd), now, parse);
    assert ApplyMarried(citizens, {}) == citizens;
    var c1 := s1.value.citizens;
    assert c1[|citizens|].cccd == cccd;
    var k := FirstWhere(c1, (c: Citizen) => c.cccd == cccd);
    assert k.Some?;
  }

  // ---------------------------------------------------------------------------
  // Which derivation runs
  // ---------------------------------------------------------------------------

  /** `service != null && application.ServiceTypeId == service.Id` for the service found by name. */
  predicate Matches(types: seq<ServiceType>, name: string, serviceTypeId: int) {
    FindServiceType(types, name).Some? && FindServiceType(types, name).value.id == serviceTypeId
  }

  /** Service types with distinct names have distinct ids, so a service type id matches at most one name. */
  lemma MatchesOneName(types: seq<ServiceType>, n1: string, n2: string, serviceTypeId: int)
    requires ServiceTypeIds(types) && n1 != n2
    ensures !(Matches(types, n1, serviceTypeId) && Matches(types, n2, serviceTypeId))
  {
  }

  /** At most one of the three derivations runs on a signing. */
  lemma AtMostOneDerivation(types: seq<ServiceType>, serviceTypeId: int)
    requires ServiceTypeIds(types)
    ensures !(Matches(types, BirthService, serviceTypeId) && Matches(types, MarriageService, serviceTypeId))
    ensures !(Matches(types, BirthService, serviceTypeId) && Matches(types, ResidenceService, serviceTypeId))
    ensures !(Matches(types, MarriageService, serviceTypeId) && Matches(types, ResidenceService, serviceTypeId))
  {
    MatchesOneName(types, BirthService, MarriageService, serviceTypeId);
    MatchesOneName(types, BirthService, ResidenceService, serviceTypeId);
    MatchesOneName(types, MarriageService, ResidenceService, serviceTypeId);
  }

  // ---------------------------------------------------------------------------
  // The derivation phase of a signing
  // ---------------------------------------------------------------------------

  /** The civil registry after a derivation step, and how the step ended. */
  datatype SignEffect = SignEffect(registry: Registry, derivation: Derivation)

  function BirthStep(reg: Registry, a: Application, signer: Option<string>, now: DateTime,
                     random: int, parse: string -> Option<DateTime>): SignEffect
    requires 100000 <= random < 999999
  {
    var b := BirthDerivation(a.content, a.id, signer, now, random, parse);
    SignEffect(reg.(births := reg.births + (if b.Success? then [b.value.(id := |reg.births| + 1)] else [])),
               Outcome(b))
  }

  function MarriageStep(reg: Registry, a: Application, now: DateTime, parse: string -> Option<DateTime>)
    : SignEffect
  {
    var e := MarriageDerivation(reg.citizens, reg.marriages, a.content, a.id, now, parse);
    SignEffect(reg.(citizens := e.citizens, marriages := e.marriages), e.outcome)
  }

  function ResidenceStep(reg: Registry, a: Application, signer: Option<string>, now: DateTime,
                         parse: string -> Option<DateTime>): SignEffect
  {
    var t := ResidenceDerivation(a.content, a.id, signer, now, parse);
    SignEffect(reg.(residences := reg.residences + (if t.Success? then [t.value.(id := |reg.residences| + 1)] else [])),
               Outcome(t))
  }

  /** The three guarded derivation steps of `Sign`, in the order the source runs them. */
  function SignDerivation(types: seq<ServiceType>, a: Application, signer: Option<string>, now: DateTime,
                          random: int, parse: string -> Option<DateTime>, reg: Registry): SignEffect
    requires 100000 <= random < 999999
  {
    var e0 := SignEffect(reg, NotApplicable);
    var e1 := if Matches(types, BirthService, a.serviceTypeId)
              then BirthStep(e0.registry, a, signer, now, random, parse) else e0;
    var e2 := if Matches(types, MarriageService, a.serviceTypeId)
              then MarriageStep(e1.registry, a, now, parse) else e1;
    if Matches(types, ResidenceService, a.serviceTypeId)
    then ResidenceStep(e2.registry, a, signer, now, parse) else e2
  }

  /**
   * A signing derives from the one service type its application's id matches
   * by name, and derives nothing, with no error, for any other service type.
   */
  lemma SignDerivationCases(types: seq<ServiceType>, a: Application, signer: Option<string>, now: DateTime,
                            random: int, parse: string -> Option<DateTime>, reg: Registry)
    requires ServiceTypeIds(types) && 100000 <= random < 999999
    ensures var e := SignDerivation(types, a, signer, now, random, parse, reg);
      && (Matches(types, BirthService, a.serviceTypeId) ==> e == BirthStep(reg, a, signer, now, random, parse))
      && (Matches(types, MarriageService, a.serviceTypeId) ==> e == MarriageStep(reg, a, now, parse))
      && (Matches(types, ResidenceService, a.serviceTypeId) ==> e == ResidenceStep(reg, a, signer, now, parse))
      && ((!Matches(types, BirthService, a.serviceTypeId) && !Matches(types, MarriageService, a.serviceTypeId)
           && !Matches(types, ResidenceService, a.serviceTypeId)) ==> e == SignEffect(reg, NotApplicable))
  {
    AtMostOneDerivation(types, a.serviceTypeId);
  }

  /** A derivation never touches the tables of the other two kinds of record. */
  lemma DerivationStaysInItsTables(reg: Registry, a: Application, signer: Option<string>, now: DateTime,
                                   random: int, parse: string -> Option<DateTime>)
    requires 100000 <= random < 999999
    ensures var b := BirthStep(reg, a, signer, now, random, parse).registry;
      b.citizens == reg.citizens && b.marriages == reg.marriages && b.residences == reg.residences
    ensures var m := MarriageStep(reg, a, now, parse).registry;
      m.births == reg.births && m.residences == reg.residences
    ensures var t := ResidenceStep(reg, a, signer, now, parse).registry;
      t.citizens == reg.citizens && t.marriages == reg.marriages && t.births == reg.births
  {
  }

  method DeriveBirth(db: Db, a: Application, signer: Option<string>, now: DateTime,
                     random: int, parse: string -> Option<DateTime>) returns (d: Derivation)
    requires db.Valid() && 100000 <= random < 999999
    modifies db`births
    ensures db.Valid()
    ensures SignEffect(db.Civil(), d) == BirthStep(old(db.Civil()), a, signer, now, random, parse)
  {
    var r := BirthDerivation(a.content, a.id, signer, now, random, parse);
    if r.Success? {
      db.births := db.births + [r.value.(id := |db.births| + 1)];
    }
    d := Outcome(r);
  }

  method DeriveResidence(db: Db, a: Application, signer: Option<string>, now: DateTime,
                         parse: string -> Option<DateTime>) returns (d: Derivation)
    requires db.Valid()
    modifies db`residences
    ensures db.Valid()
    ensures SignEffect(db.Civil(), d) == ResidenceStep(old(db.Civil()), a, signer, now, parse)
  {
    var e := ResidenceStep(db.Civil(), a, signer, now, parse);
    db.residences := e.registry.residences;
    d := e.derivation;
  }

  /** One party of a marriage against the store: the save point of `PartyStep`. */
  method SaveParty(db: Db, pending: set<int>, found: Option<Citizen>, content: Content, role: Party,
                   cccd: Option<string>, now: DateTime, parse: string -> Option<DateTime>)
    returns (r: Result<Step, DerivationError>)
    requires db.Valid()
    modifies db`citizens
    ensures db.Valid()
    ensures r == PartyStep(old(db.citizens), pending, found, content, role, cccd, now, parse)
    ensures db.citizens == if r.Success? then r.value.citizens else old(db.citizens)
  {
    if found.Some? {
      return Success(Step(db.citizens, pending + {found.value.id}, found.value.id));
    }
    var c :- NewParty(content, role, cccd, now, parse);
    var saved, id := db.SaveCitizen(pending, c);
    if !saved {
      return Failure(DuplicateCccd(c.cccd));
    }
    r := Success(Step(db.citizens, {}, id));
  }

  /** The marriage derivation, one save point at a time. */
  method DeriveMarriage(db: Db, a: Application, now: DateTime, parse: string -> Option<DateTime>)
    returns (d: Derivation)
    requires db.Valid()
    modifies db`citizens, db`marriages
    ensures db.Valid()
    ensures SignEffect(db.Civil(), d) == MarriageStep(old(db.Civil()), a, now, parse)
  {
    var f1 := Field(a.content, "ApplicantCCCD");
    if f1.Failure? {
      return Aborted(f1.error);
    }
    var f2 := Field(a.content, "SpouseCCCD");
    if f2.Failure? {
      return Aborted(f2.error);
    }
    d := SaveParties(db, a.id, a.content, f1.value, f2.value, now, parse);
  }

  method SaveParties(db: Db, appId: int, content: Content, cccd1: Option<string>, cccd2: Option<string>,
                     now: DateTime, parse: string -> Option<DateTime>) returns (d: Derivation)
    requires db.Valid()
    modifies db`citizens, db`marriages
    ensures db.Valid()
    ensures MarriageEffect(db.citizens, db.marriages, d)
         == MarryParties(old(db.citizens), old(db.marriages), content, appId, cccd1, cccd2, now, parse)
  {
    var spouse1 := FindParty(db.citizens, cccd1);
    var spouse2 := FindParty(db.citizens, cccd2);
    PartyStepShape(db.citizens, {}, spouse1, content, Applicant, cccd1, now, parse);
    var s1 := SaveParty(db, {}, spouse1, content, Applicant, cccd1, now, parse);
    if s1.Failure? {
      return Aborted(s1.error);
    }
    d := SaveSpouse(db, s1.value, appId, content, spouse2, cccd2, now, parse);
  }

  method SaveSpouse(db: Db, s1: Step, appId: int, content: Content, spouse2: Option<Citizen>,
                    cccd2: Option<string>, now: DateTime, parse: string -> Option<DateTime>)
    returns (d: Derivation)
    requires db.Valid() && db.citizens == s1.citizens
    requires 1 <= s1.spouseId <= |db.citizens| && (forall i | i in s1.pending :: 1 <= i <= |db.citizens|)
    requires spouse2.Some? ==> 1 <= spouse2.value.id <= |db.citizens|
    modifies db`citizens, db`marriages
    ensures db.Valid()
    ensures MarriageEffect(db.citizens, db.marriages, d)
         == MarrySpouse(s1, old(db.marriages), content, appId, spouse2, cccd2, now, parse)
  {
    PartyStepBounds(db.citizens, s1.pending, spouse2, content, Spouse, cccd2, now, parse);
    var s2 := SaveParty(db, s1.pending, spouse2, content, Spouse, cccd2, now, parse);
    MarrySpouseAfter(s1, old(db.marriages), content, appId, spouse2, cccd2, now, parse, s2);
    if s2.Failure? {
      return Aborted(s2.error);
    }
    db.SaveMarriage(s2.value.pending, MarriageRecordFor(appId, s1.spouseId, s2.value.spouseId, now));
    d := Derived;
  }

  /** A party step only adds rows, and the party's id and the pending ids name rows. */
  lemma PartyStepBounds(citizens: seq<Citizen>, pending: set<int>, found: Option<Citizen>, content: Content,
                        role: Party, cccd: Option<string>, now: DateTime, parse: string -> Option<DateTime>)
    requires CitizenIds(citizens) && UniqueCccd(citizens)
    requires found.Some? ==> 1 <= found.value.id <= |citizens|
    requires forall i | i in pending :: 1 <= i <= |citizens|
    ensures var r := PartyStep(citizens, pending, found, content, role, cccd, now, parse);
      r.Success? ==>
        && |citizens| <= |r.value.citizens|
        && 1 <= r.value.spouseId <= |r.value.citizens|
        && (forall i | i in r.value.pending :: 1 <= i <= |r.value.citizens|)
  {
    PartyStepShape(citizens, pending, found, content, role, cccd, now, parse);
  }

  /** `MarrySpouse` once the second party's step is known. */
  lemma MarrySpouseAfter(s1: Step, marriages: seq<MarriageRecord>, content: Content, appId: int,
                         spouse2: Option<Citizen>, cccd2: Option<string>, now: DateTime,
                         parse: string -> Option<DateTime>, s2: Result<Step, DerivationError>)
    requires s2 == PartyStep(s1.citizens, s1.pending, spouse2, content, Spouse, cccd2, now, parse)
    ensures s2.Failure? ==> MarrySpouse(s1, marriages, content, appId, spouse2, cccd2, now, parse)
                            == MarriageEffect(s1.citizens, marriages, Aborted(s2.error))
    ensures s2.Success? ==>
      (MarrySpouse(s1, marriages, content, appId, spouse2, cccd2, now, parse)
       == MarriageEffect(ApplyMarried(s2.value.citizens, s2.value.pending),
                         marriages + [MarriageRecordFor(appId, s1.spouseId, s2.value.spouseId, now)
                                        .(id := |marriages| + 1)], Derived))
  {
  }

  /** The derivation phase of `Sign` against the store. */
  method Derive(db: Db, a: Application, signer: Option<string>, now: DateTime,
                random: int, parse: string -> Option<DateTime>) returns (d: Derivation)
    requires db.Valid() && 100000 <= random < 999999
    modifies db`citizens, db`marriages, db`births, db`residences
    ensures db.Valid()
    ensures SignEffect(db.Civil(), d) == SignDerivation(db.serviceTypes, a, signer, now, random, parse, old(db.Civil()))
  {
    d := NotApplicable;
    if Matches(db.serviceTypes, BirthService, a.serviceTypeId) {
      d := DeriveBirth(db, a, signer, now, random, parse);
    }
    if Matches(db.serviceTypes, MarriageService, a.serviceTypeId) {
      d := DeriveMarriage(db, a, now, parse);
    }
    if Matches(db.serviceTypes, ResidenceService, a.serviceTypeId) {
      d := DeriveResidence(db, a, signer, now, parse);
    }
  }

  // ---------------------------------------------------------------------------
  // The actions
  // ---------------------------------------------------------------------------

  /** The note of a signing: the chairman's, unless null or empty. */
  function SignNoteFor(note: Option<string>): (text: string)
    ensures text != ""
    ensures note.Some? && note.value != "" ==> text == note.value
    ensures note.None? || note.value == "" ==> text == SignNote
  {
    if note.None? || note.value == "" then SignNote else note.value
  }

  /**
   * `Sign`: from any status the application becomes Signed with one history
   * entry, saved before the record its service type calls for is derived.
   */
  method Sign(db: Db, id: int, note: Option<string>, actor: Option<string>, now: DateTime,
              random: int, parse: string -> Option<DateTime>) returns (r: SignOutcome)
    requires db.Valid() && 100000 <= random < 999999
    modifies db`applications, db`histories, db`citizens, db`marriages, db`births, db`residences
    ensures db.Valid()
    ensures r == NotFound <==> old(FindApplication(db.applications, id)).None?
    ensures r == NotFound ==>
      db.applications == old(db.applications) && db.histories == old(db.histories) && db.Civil() == old(db.Civil())
    ensures r.SignedWith? ==>
      var a := old(db.applications)[id - 1];
      && db.applications == old(db.applications)[id - 1 := a.(status := Signed, lastModifiedDate := Some(now))]
      && db.histories == old(db.histories)
           + [ApplicationHistory(|old(db.histories)| + 1, id, now, Signed, SignNoteFor(note), actor.GetOr(""))]
      && SignEffect(db.Civil(), r.derivation)
           == SignDerivation(db.serviceTypes, a, actor, now, random, parse, old(db.Civil()))
    ensures r.SignedWith? ==> LastLoggedStatus(db.histories, id) == Some(Signed)
  {
    FindApplicationAt(db.applications, id);
    if FindApplication(db.applications, id).None? {
      return NotFound;
    }
    var a := db.applications[id - 1];
    db.SaveTransition(id - 1, a.(status := Signed, lastModifiedDate := Some(now)),
                      DefaultHistory(now).(applicationId := id, status := Signed,
                                           note := SignNoteFor(note), changedById := actor.GetOr("")));
    LastLoggedAppend(old(db.histories), db.histories[|db.histories| - 1], id);
    var d := Derive(db, a, actor, now, random, parse);
    r := SignedWith(d);
  }

  /** `Complete`: from any status the application becomes Completed with one history entry. */
  method Complete(db: Db, id: int, actor: Option<string>, now: DateTime) returns (found: bool)
    requires db.Valid()
    modifies db`applications, db`histories
    ensures db.Valid()
    ensures found <==> old(FindApplication(db.applications, id)).Some?
    ensures !found ==> db.applications == old(db.applications) && db.histories == old(db.histories)
    ensures found ==>
      var a := old(db.applications)[id - 1];
      && db.applications == old(db.applications)[id - 1 := a.(status := Completed, lastModifiedDate := Some(now))]
      && db.histories == old(db.histories)
           + [ApplicationHistory(|old(db.histories)| + 1, id, now, Completed, CompleteNote, actor.GetOr(""))]
    ensures found ==> LastLoggedStatus(db.histories, id) == Some(Completed)
  {
    FindApplicationAt(db.applications, id);
    found := FindApplication(db.applications, id).Some?;
    if found {
      var a := db.applications[id - 1];
      db.SaveTransition(id - 1, a.(status := Completed, lastModifiedDate := Some(now)),
                        DefaultHistory(now).(applicationId := id, status := Completed,
                                             note := CompleteNote, changedById := actor.GetOr("")));
      LastLoggedAppend(old(db.histories), db.histories[|db.histories| - 1], id);
    }
  }

  /**
   * `Reject`: from any status the application becomes Rejected, keeping the
   * reason verbatim; the entry's note quotes it (a null reason as nothing).
   */
  method Reject(db: Db, id: int, reason: Option<string>, actor: Option<string>, now: DateTime)
    returns (found: bool)
    requires db.Valid()
    modifies db`applications, db`histories
    ensures db.Valid()
    ensures found <==> old(FindApplication(db.applications, id)).Some?
    ensures !found ==> db.applications == old(db.applications) && db.histories == old(db.histories)
    ensures found ==>
      var a := old(db.applications)[id - 1];
      && db.applications == old(db.applications)[id - 1 :=
           a.(status := Rejected, rejectReason := reason, lastModifiedDate := Some(now))]
      && db.histories == old(db.histories)
           + [ApplicationHistory(|old(db.histories)| + 1, id, now, Rejected,
                                 RejectPrefix + reason.GetOr(""), actor.GetOr(""))]
    ensures found ==> LastLoggedStatus(db.histories, id) == Some(Rejected)
  {
    FindApplicationAt(db.applications, id);
    found := FindApplication(db.applications, id).Some?;
    if found {
      var a := db.applications[id - 1];
      db.SaveTransition(id - 1, a.(status := Rejected, rejectReason := reason, lastModifiedDate := Some(now)),
                        DefaultHistory(now).(applicationId := id, status := Rejected,
                                             note := RejectPrefix + reason.GetOr(""),
                                             changedById := actor.GetOr("")));
      LastLoggedAppend(old(db.histories), db.histories[|db.histories| - 1], id);
    }
  }
}
