/**
 * The citizen's own pages (Controllers/CitizenController.cs): the list of the
 * citizen's applications and the submission of a permanent-residence
 * (resident registration) application, whose files are only recorded.
 */
module CitizenPortal {
  import opened Wrappers
  import opened Calendar
  import opened Linq
  import opened Entities
  import opened Store

  const ServiceName: string := "Đăng ký thường trú"
  const ServiceDescription: string := "Đăng ký thường trú vào hộ gia đình hoặc lập hộ mới"
  const ServiceFee: int := 15000
  const DocumentType: string := "SupportingDocument"
  const SubmittedNote: string := "Hồ sơ đã được dân gửi trực tuyến"

  /**
   * `Applications`: without a user, nothing (Unauthorized); otherwise every
   * application of that user, as often as it occurs, nothing else, newest first.
   */
  function Applications(apps: seq<Application>, userId: Option<string>): (r: Option<seq<Application>>)
    ensures r.Some? <==> userId.Some?
    ensures r.Some? ==> forall a :: multiset(r.value)[a] == if a.citizenId == userId.value then multiset(apps)[a] else 0
    ensures r.Some? ==> SortedDescending(r.value, (a: Application) => a.createdDate)
  {
    if userId.None? then None
    else Some(WhereOrderedDescending(apps, (a: Application) => a.citizenId == userId.value,
                                     (a: Application) => a.createdDate))
  }

  /** The seven form fields of a resident-registration application. */
  datatype ResidentForm = ResidentForm(
    fullName: string, dob: string, gender: string, cccd: string, address: string,
    relationship: string, householdOwner: string)

  function FormContent(form: ResidentForm): Content {
    map["FullName" := Some(form.fullName), "DOB" := Some(form.dob), "Gender" := Some(form.gender),
        "CCCD" := Some(form.cccd), "Address" := Some(form.address), "Relationship" := Some(form.relationship),
        "HouseholdOwner" := Some(form.householdOwner)]
  }

  /** GET `CreateResidentRegistration`: get-or-create of the resident-registration service, at 15 000 VND. */
  method Prepare(db: Db) returns (service: ServiceType)
    requires db.Valid()
    modifies db`serviceTypes
    ensures db.Valid()
    ensures db.serviceTypes == WithServiceType(old(db.serviceTypes), ServiceName, ServiceDescription, ServiceFee)
    ensures FindServiceType(db.serviceTypes, ServiceName) == Some(service)
    ensures old(FindServiceType(db.serviceTypes, ServiceName)).None? ==> service.fee == ServiceFee
  {
    service := db.GetOrCreateServiceType(ServiceName, ServiceDescription, ServiceFee);
    GetOrCreateIdempotent(old(db.serviceTypes), ServiceName, ServiceDescription, ServiceFee);
  }

  /**
   * POST `CreateResidentRegistration`: without a user nothing happens;
   * otherwise one Submitted application with the seven fields, one attachment
   * row per file whose path is "/uploads/" and the file's own name (nothing is
   * written), and one Submitted history entry by the user.
   */
  method CreateResidentRegistration(db: Db, userId: Option<string>, serviceTypeId: int, form: ResidentForm,
                                    fileNames: seq<string>, now: DateTime)
    returns (r: Submission)
    requires db.Valid()
    modifies db`applications, db`attachments, db`histories
    ensures db.Valid()
    ensures userId.None? ==> (r == Unauthorized && db.applications == old(db.applications)
      && db.attachments == old(db.attachments) && db.histories == old(db.histories))
    ensures userId.Some? ==>
      && r == Created(|old(db.applications)| + 1)
      && db.applications == old(db.applications) + [
           DefaultApplication(now).(id := r.id, citizenId := userId.value, serviceTypeId := serviceTypeId,
                                    content := FormContent(form), status := Submitted)]
      && db.attachments == old(db.attachments)
           + AttachmentRows(|old(db.attachments)|, r.id, fileNames, fileNames, DocumentType)
      && db.histories == old(db.histories)
           + [ApplicationHistory(|old(db.histories)| + 1, r.id, now, Submitted, SubmittedNote, userId.value)]
      && LastLoggedStatus(db.histories, r.id) == Some(Submitted)
  {
    if userId.None? {
      return Unauthorized;
    }
    var application := DefaultApplication(now).(citizenId := userId.value, serviceTypeId := serviceTypeId,
                                                 content := FormContent(form), status := Submitted);
    var id := db.SaveNewApplication(application);
    db.SaveAttachments(id, fileNames, fileNames, DocumentType);
    db.SaveHistory(DefaultHistory(now).(applicationId := id, status := Submitted,
                                        note := SubmittedNote, changedById := userId.value));
    LastLoggedAppend(old(db.histories), db.histories[|db.histories| - 1], id);
    r := Created(id);
  }
}
