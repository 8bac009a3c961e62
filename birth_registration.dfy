/**
 * Birth registration (Controllers/BirthRegistrationController.cs): the service
 * type, the citizen's submission of a birth-registration application, and the
 * citizen id generated for a newborn.
 */
module BirthRegistration {
  import opened Wrappers
  import opened Calendar
  import opened Text
  import opened Entities
  import opened Store

  const ServiceName: string := "Đăng ký khai sinh"
  const ServiceDescription: string := "Đăng ký khai sinh cho trẻ em mới sinh"
  const ServiceFee: int := 0
  const SubmittedNote: string := "Hồ sơ đăng ký khai sinh đã được nộp trực tuyến"
  const DocumentType: string := "BirthCertificateDoc"

  // ---------------------------------------------------------------------------
  // The newborn's citizen id
  // ---------------------------------------------------------------------------

  function GenderCode(gender: string): string {
    if gender == "Nam" then "0" else "1"
  }

  /** `(year % 100).ToString("D2")`, with C#'s remainder. */
  function YearCode(year: int): string {
    FormatD(TruncRem(year, 100), 2)
  }

  /**
   * `GenerateCitizenId(provinceCode, gender, yearOfBirth)` with the number
   * that `Random.Next(100000, 999999)` draws passed in as `random`.
   */
  function GenerateCitizenId(provinceCode: string, gender: string, yearOfBirth: int, random: int): (id: string)
    requires 100000 <= random < 999999
    ensures |id| > |provinceCode| && id[..|provinceCode|] == provinceCode
    ensures id[|provinceCode|] == '0' <==> gender == "Nam"
    ensures id[|provinceCode|] == '1' <==> gender != "Nam"
  {
    assert (provinceCode + GenderCode(gender) + YearCode(yearOfBirth) + IntToString(random))[|provinceCode|]
        == GenderCode(gender)[0];
    provinceCode + GenderCode(gender) + YearCode(yearOfBirth) + IntToString(random)
  }

  /**
   * For a year of birth that is not negative, the id is the province code, one
   * gender digit, the last two digits of the year and the six digits of the
   * random number: |provinceCode| + 9 characters in all.
   */
  lemma CitizenIdLayout(provinceCode: string, gender: string, yearOfBirth: int, random: int)
    requires 100000 <= random < 999999 && yearOfBirth >= 0
    ensures var id := GenerateCitizenId(provinceCode, gender, yearOfBirth, random);
      var p := |provinceCode|;
      && |id| == p + 9
      && AllDigits(id[p + 1..p + 3]) && ValueOf(id[p + 1..p + 3]) == yearOfBirth % 100
      && AllDigits(id[p + 3..]) && ValueOf(id[p + 3..]) == random
  {
    var id := GenerateCitizenId(provinceCode, gender, yearOfBirth, random);
    var p := |provinceCode|;
    var y := yearOfBirth % 100;
    assert YearCode(yearOfBirth) == ZeroPad(Decimal(y), 2);
    PaddedValue(y, 2);
    PaddedLength(y, 2);
    DecimalValue(random);
    DecimalAtMost(random, 6);
    DecimalAtLeast(random, 5);
    assert |Decimal(random)| == 6;
    assert id == provinceCode + GenderCode(gender) + ZeroPad(Decimal(y), 2) + Decimal(random);
    assert id[p + 1..p + 3] == ZeroPad(Decimal(y), 2);
    assert id[p + 3..] == Decimal(random);
  }

  // ---------------------------------------------------------------------------
  // Submission
  // ---------------------------------------------------------------------------

  /** The content document of a birth-registration application: eight fields. */
  function FormContent(childFullName: string, dateOfBirth: string, placeOfBirth: string, gender: string,
                       fatherName: string, fatherCccd: string, motherName: string, motherCccd: string)
    : Content
  {
    map["ChildFullName" := Some(childFullName), "DateOfBirth" := Some(dateOfBirth),
        "PlaceOfBirth" := Some(placeOfBirth), "Gender" := Some(gender),
        "FatherName" := Some(fatherName), "FatherCCCD" := Some(fatherCccd),
        "MotherName" := Some(motherName), "MotherCCCD" := Some(motherCccd)]
  }

  /** GET `Create`: get-or-create of the free birth-registration service. */
  method Prepare(db: Db) returns (service: ServiceType)
    requires db.Valid()
    modifies db`serviceTypes
    ensures db.Valid()
    ensures db.serviceTypes == WithServiceType(old(db.serviceTypes), ServiceName, ServiceDescription, ServiceFee)
    ensures FindServiceType(db.serviceTypes, ServiceName) == Some(service)
    ensures old(FindServiceType(db.serviceTypes, ServiceName)).None? ==> service.fee == ServiceFee
  {
    service := db.GetOrCreateServiceType(ServiceName, ServiceDescription, ServiceFee);
    GetOrCreateIdempotent(old(db.serviceTypes), ServiceName, ServiceDescription, ServiceFee);
  }

  /**
   * POST `Create`: without a signed-in user nothing happens; otherwise one
   * Submitted application with the eight form fields, one attachment row per
   * uploaded file and one Submitted history entry by the user.
   */
  method Create(db: Db, userId: Option<string>, serviceTypeId: int,
                childFullName: string, dateOfBirth: string, placeOfBirth: string, gender: string,
                fatherName: string, fatherCccd: string, motherName: string, motherCccd: string,
                fileNames: seq<string>, storedNames: seq<string>, now: DateTime)
    returns (r: Submission)
    requires db.Valid() && |storedNames| == |fileNames|
    modifies db`applications, db`attachments, db`histories
    ensures db.Valid()
    ensures userId.None? ==> (r == Unauthorized && db.applications == old(db.applications)
      && db.attachments == old(db.attachments) && db.histories == old(db.histories))
    ensures userId.Some? ==> r == Created(|old(db.applications)| + 1)
    ensures userId.Some? ==> db.applications == old(db.applications) + [
      DefaultApplication(now).(id := r.id, citizenId := userId.value, serviceTypeId := serviceTypeId,
        content := FormContent(childFullName, dateOfBirth, placeOfBirth, gender,
                               fatherName, fatherCccd, motherName, motherCccd),
        status := Submitted)]
    ensures userId.Some? ==> (db.attachments == old(db.attachments)
      + AttachmentRows(|old(db.attachments)|, r.id, fileNames, storedNames, DocumentType))
    ensures userId.Some? ==> (db.histories == old(db.histories)
      + [ApplicationHistory(|old(db.histories)| + 1, r.id, now, Submitted, SubmittedNote, userId.value)])
    ensures userId.Some? ==> LastLoggedStatus(db.histories, r.id) == Some(Submitted)
  {
    if userId.None? {
      return Unauthorized;
    }
    var application := DefaultApplication(now).(citizenId := userId.value, serviceTypeId := serviceTypeId,
      content := FormContent(childFullName, dateOfBirth, placeOfBirth, gender,
                             fatherName, fatherCccd, motherName, motherCccd),
      status := Submitted);
    var id := db.SaveNewApplication(application);
    db.SaveAttachments(id, fileNames, storedNames, DocumentType);
    db.SaveHistory(DefaultHistory(now).(applicationId := id, status := Submitted,
                                        note := SubmittedNote, changedById := userId.value));
    LastLoggedAppend(old(db.histories), db.histories[|db.histories| - 1], id);
    r := Created(id);
  }
}
