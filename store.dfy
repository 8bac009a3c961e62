/**
 * The record store behind `ApplicationDbContext`: one sequence per table, with
 * the lookups the controllers run against it and the invariants every
 * operation keeps. Row ids are assigned by counting (the id of a new row is the
 * table's length plus one) and the core never deletes a row, so a row's id is
 * its position plus one. The unique index on `Citizen.CCCD`
 * (Data/ApplicationDbContext.cs:45-47) is the invariant `UniqueCccd`: an insert
 * that would break it fails and leaves the table unchanged.
 */
module Store {
  import opened Wrappers
  import opened Calendar
  import opened Entities
  import opened CitizenRecord
  import opened Linq

  /** The civil-registry tables a signing may derive rows into. */
  datatype Registry = Registry(citizens: seq<Citizen>, marriages: seq<MarriageRecord>,
                               births: seq<BirthRecord>, residences: seq<TemporaryResidence>)

  /** What a citizen's submission action ends in. */
  datatype Submission = Unauthorized | InvalidPin | Created(id: int)

  // ---------------------------------------------------------------------------
  // Lookups
  // ---------------------------------------------------------------------------

  /** `Applications.FindAsync(id)`. */
  function FindApplication(apps: seq<Application>, id: int): Option<Application> {
    FirstOrDefault(apps, (a: Application) => a.id == id)
  }

  /** `ServiceTypes.FirstOrDefaultAsync(s => s.Name == name)`. */
  function FindServiceType(types: seq<ServiceType>, name: string): Option<ServiceType> {
    FirstOrDefault(types, (t: ServiceType) => t.name == name)
  }

  /** `Citizens.FirstOrDefaultAsync(c => c.CCCD == cccd)`. */
  function FindCitizen(citizens: seq<Citizen>, cccd: string): Option<Citizen> {
    FirstOrDefault(citizens, (c: Citizen) => c.cccd == cccd)
  }

  /** `Users.FirstOrDefaultAsync(u => u.CCCD == cccd)`. */
  function FindUser(users: seq<User>, cccd: string): Option<User> {
    FirstOrDefault(users, (u: User) => u.cccd == Some(cccd))
  }

  /** The status of the most recent history entry for an application, if any. */
  function LastLoggedStatus(hs: seq<ApplicationHistory>, appId: int): Option<ApplicationStatus>
    decreases |hs|
  {
    if hs == [] then None
    else if hs[|hs| - 1].applicationId == appId then Some(hs[|hs| - 1].status)
    else LastLoggedStatus(hs[..|hs| - 1], appId)
  }

  /** A set of citizens whose `MaritalStatus` the change tracker holds as "Đã kết hôn". */
  function ApplyMarried(citizens: seq<Citizen>, ids: set<int>): (r: seq<Citizen>)
    ensures |r| == |citizens|
    ensures forall i | 0 <= i < |r| ::
      r[i] == if citizens[i].id in ids then citizens[i].(maritalStatus := Married) else citizens[i]
  {
    seq(|citizens|, i requires 0 <= i < |citizens| =>
      if citizens[i].id in ids then citizens[i].(maritalStatus := Married) else citizens[i])
  }

  /**
   * The attachment rows for uploaded files, numbered after `first` existing rows:
   * file k belongs to `appId` and is stored at "/uploads/" + `storedNames[k]`.
   */
  function AttachmentRows(first: int, appId: int, fileNames: seq<string>, storedNames: seq<string>,
                          documentType: string): (rows: seq<Attachment>)
    requires |storedNames| == |fileNames|
    ensures |rows| == |fileNames|
    ensures forall k | 0 <= k < |rows| ::
      rows[k] == Attachment(first + k + 1, appId, fileNames[k], "/uploads/" + storedNames[k], documentType)
  {
    seq(|fileNames|, k requires 0 <= k < |fileNames| =>
      Attachment(first + k + 1, appId, fileNames[k], "/uploads/" + storedNames[k], documentType))
  }

  /** Nothing pending writes nothing. */
  lemma ApplyNothing(citizens: seq<Citizen>)
    ensures ApplyMarried(citizens, {}) == citizens
  {
  }

  // ---------------------------------------------------------------------------
  // Table invariants
  // ---------------------------------------------------------------------------

  ghost predicate ApplicationIds(apps: seq<Application>) {
    forall i | 0 <= i < |apps| :: apps[i].id == i + 1
  }

  ghost predicate ServiceTypeIds(types: seq<ServiceType>) {
    forall i | 0 <= i < |types| :: types[i].id == i + 1
  }

  ghost predicate CitizenIds(citizens: seq<Citizen>) {
    forall i | 0 <= i < |citizens| :: citizens[i].id == i + 1
  }

  /** The unique index on `Citizen.CCCD`. */
  ghost predicate UniqueCccd(citizens: seq<Citizen>) {
    forall i, j | 0 <= i < j < |citizens| :: citizens[i].cccd != citizens[j].cccd
  }

  ghost predicate HistoriesLinked(hs: seq<ApplicationHistory>, n: int) {
    forall k | 0 <= k < |hs| :: 1 <= hs[k].applicationId <= n
  }

  ghost predicate AttachmentsLinked(atts: seq<Attachment>, n: int) {
    forall k | 0 <= k < |atts| :: 1 <= atts[k].applicationId <= n
  }

  ghost predicate RequestsLinked(reqs: seq<ConfirmationRequest>, n: int) {
    forall k | 0 <= k < |reqs| :: 1 <= reqs[k].applicationId <= n
  }

  /** At most one confirmation request per application (hence per application and target). */
  ghost predicate OneRequestPerApplication(reqs: seq<ConfirmationRequest>) {
    forall i, j | 0 <= i < j < |reqs| :: reqs[i].applicationId != reqs[j].applicationId
  }

  ghost predicate SpousesLinked(ms: seq<MarriageRecord>, n: int) {
    forall k | 0 <= k < |ms| :: 1 <= ms[k].spouse1Id <= n && 1 <= ms[k].spouse2Id <= n
  }

  /** Every application that has history is in the status its latest entry records. */
  ghost predicate StatusLogged(apps: seq<Application>, hs: seq<ApplicationHistory>) {
    forall i | 0 <= i < |apps| ::
      LastLoggedStatus(hs, apps[i].id).None? || LastLoggedStatus(hs, apps[i].id).value == apps[i].status
  }

  // ---------------------------------------------------------------------------
  // Properties of the lookups
  // ---------------------------------------------------------------------------

  /** With counted ids, finding an application by id is indexing. */
  lemma FindApplicationAt(apps: seq<Application>, id: int)
    requires ApplicationIds(apps)
    ensures FindApplication(apps, id).Some? <==> 1 <= id <= |apps|
    ensures 1 <= id <= |apps| ==> FindApplication(apps, id) == Some(apps[id - 1])
  {
    if 1 <= id <= |apps| {
      assert apps[id - 1].id == id;
      var k := FirstWhere(apps, (a: Application) => a.id == id).value;
      assert apps[k].id == id;
    }
  }

  /** Under the unique index, the citizen found by CCCD is the only one with it. */
  lemma FindCitizenUnique(citizens: seq<Citizen>, i: int)
    requires UniqueCccd(citizens) && 0 <= i < |citizens|
    ensures FindCitizen(citizens, citizens[i].cccd) == Some(citizens[i])
  {
    var k := FirstWhere(citizens, (c: Citizen) => c.cccd == citizens[i].cccd).value;
    assert citizens[k].cccd == citizens[i].cccd;
  }

  /** After appending a row, a CCCD is unknown exactly when it was unknown before and the row has another. */
  lemma FindCitizenAppend(citizens: seq<Citizen>, c: Citizen, cccd: string)
    ensures FindCitizen(citizens + [c], cccd).None? <==> FindCitizen(citizens, cccd).None? && c.cccd != cccd
  {
    var s := citizens + [c];
    if FindCitizen(citizens, cccd).None? && c.cccd != cccd {
      forall j | 0 <= j < |s| ensures s[j].cccd != cccd {
        if j < |citizens| {
          assert s[j] == citizens[j];
        }
      }
    }
    if FindCitizen(s, cccd).None? {
      forall j | 0 <= j < |citizens| ensures citizens[j].cccd != cccd {
        assert s[j] == citizens[j];
      }
      assert s[|citizens|] == c;
    }
  }

  /** A new citizen saved as row n + 1 under a CCCD no row has keeps the ids and the unique index. */
  lemma AppendCitizen(citizens: seq<Citizen>, pending: set<int>, c: Citizen)
    requires CitizenIds(citizens) && UniqueCccd(citizens) && FindCitizen(citizens, c.cccd).None?
    requires c.id == |citizens| + 1
    ensures CitizenIds(ApplyMarried(citizens, pending) + [c]) && UniqueCccd(ApplyMarried(citizens, pending) + [c])
  {
    var s := ApplyMarried(citizens, pending) + [c];
    forall i | 0 <= i < |citizens|
      ensures s[i].id == i + 1 && s[i].cccd == citizens[i].cccd && s[i].cccd != c.cccd
    {
    }
  }

  /** Appending an entry makes it the latest for its application and hides no other. */
  lemma LastLoggedAppend(hs: seq<ApplicationHistory>, h: ApplicationHistory, appId: int)
    ensures LastLoggedStatus(hs + [h], appId)
            == if h.applicationId == appId then Some(h.status) else LastLoggedStatus(hs, appId)
  {
    assert (hs + [h])[..|hs + [h]| - 1] == hs;
  }

  /** An application no entry refers to has no logged status. */
  lemma {:induction false} LastLoggedNone(hs: seq<ApplicationHistory>, appId: int)
    requires forall k | 0 <= k < |hs| :: hs[k].applicationId != appId
    ensures LastLoggedStatus(hs, appId).None?
    decreases |hs|
  {
    if hs != [] {
      LastLoggedNone(hs[..|hs| - 1], appId);
    }
  }

  // ---------------------------------------------------------------------------
  // Get-or-create of a service type, as a value
  // ---------------------------------------------------------------------------

  /** The service-type table after a get-or-create by name. */
  function WithServiceType(types: seq<ServiceType>, name: string, description: string, fee: int)
    : seq<ServiceType>
  {
    if FindServiceType(types, name).Some? then types
    else types + [ServiceType(|types| + 1, name, description, fee)]
  }

  /**
   * Get-or-create adds at most one row, afterwards the name resolves, and a
   * second get-or-create changes nothing.
   */
  lemma GetOrCreateIdempotent(types: seq<ServiceType>, name: string, description: string, fee: int)
    ensures var t := WithServiceType(types, name, description, fee);
      && t[..|types|] == types
      && |types| <= |t| <= |types| + 1
      && FindServiceType(t, name).Some?
      && (FindServiceType(types, name).None? ==> FindServiceType(t, name).value.fee == fee)
      && WithServiceType(t, name, description, fee) == t
  {
    var t := WithServiceType(types, name, description, fee);
    if FindServiceType(types, name).None? {
      assert t[|types|].name == name;
      var k := FirstWhere(t, (s: ServiceType) => s.name == name).value;
      assert k == |types|;
    }
  }

  // ---------------------------------------------------------------------------
  // The store
  // ---------------------------------------------------------------------------

  class Db {
    var serviceTypes: seq<ServiceType>
    var applications: seq<Application>
    var attachments: seq<Attachment>
    var histories: seq<ApplicationHistory>
    var confirmations: seq<ConfirmationRequest>
    /** The identity store's accounts; the core only reads them. */
    var users: seq<User>
    var citizens: seq<Citizen>
    var households: seq<HouseholdRegistry>
    var marriages: seq<MarriageRecord>
    var births: seq<BirthRecord>
    var residences: seq<TemporaryResidence>

    function Civil(): Registry
      reads this
    {
      Registry(citizens, marriages, births, residences)
    }

    ghost predicate Valid()
      reads this
    {
      && ServiceTypeIds(serviceTypes)
      && ApplicationIds(applications)
      && CitizenIds(citizens)
      && UniqueCccd(citizens)
      && HistoriesLinked(histories, |applications|)
      && AttachmentsLinked(attachments, |applications|)
      && RequestsLinked(confirmations, |applications|)
      && OneRequestPerApplication(confirmations)
      && SpousesLinked(marriages, |citizens|)
      && StatusLogged(applications, histories)
    }

    /** An empty store over the given accounts. */
    constructor (accounts: seq<User>)
      ensures Valid() && users == accounts
      ensures serviceTypes == [] && applications == [] && attachments == [] && histories == []
      ensures confirmations == [] && citizens == [] && households == []
      ensures marriages == [] && births == [] && residences == []
    {
      serviceTypes, applications, attachments, histories := [], [], [], [];
      confirmations, users, citizens, households := [], accounts, [], [];
      marriages, births, residences := [], [], [];
    }

    /**
     * `FirstOrDefaultAsync(s => s.Name == name)`, and when that finds nothing,
     * `ServiceTypes.Add` of a new row and `SaveChangesAsync`.
     */
    method GetOrCreateServiceType(name: string, description: string, fee: int)
      returns (service: ServiceType)
      requires Valid()
      modifies this`serviceTypes
      ensures Valid()
      ensures serviceTypes == WithServiceType(old(serviceTypes), name, description, fee)
      ensures FindServiceType(serviceTypes, name) == Some(service)
      ensures old(FindServiceType(serviceTypes, name)).Some? ==> service == old(FindServiceType(serviceTypes, name)).value
    {
      GetOrCreateIdempotent(serviceTypes, name, description, fee);
      var found := FindServiceType(serviceTypes, name);
      if found.Some? {
        service := found.value;
      } else {
        service := ServiceType(|serviceTypes| + 1, name, description, fee);
        serviceTypes := serviceTypes + [service];
      }
    }

    /** `Applications.Add(a)` and `SaveChangesAsync`: the new row gets the next id. */
    method SaveNewApplication(a: Application) returns (id: int)
      requires Valid()
      modifies this`applications
      ensures Valid()
      ensures id == |old(applications)| + 1
      ensures applications == old(applications) + [a.(id := id)]
    {
      id := |applications| + 1;
      forall k | 0 <= k < |histories| ensures histories[k].applicationId != id {
      }
      LastLoggedNone(histories, id);
      applications := applications + [a.(id := id)];
    }

    /** `ApplicationHistories.Add(h)` and `SaveChangesAsync` for an entry that matches its application. */
    method SaveHistory(h: ApplicationHistory)
      requires Valid()
      requires 1 <= h.applicationId <= |applications|
      requires h.status == applications[h.applicationId - 1].status
      modifies this`histories
      ensures Valid()
      ensures histories == old(histories) + [h.(id := |old(histories)| + 1)]
    {
      var e := h.(id := |histories| + 1);
      forall i | 0 <= i < |applications|
        ensures LastLoggedStatus(histories + [e], applications[i].id).None?
             || LastLoggedStatus(histories + [e], applications[i].id).value == applications[i].status
      {
        LastLoggedAppend(histories, e, applications[i].id);
      }
      histories := histories + [e];
    }

    /**
     * One status transition saved together with its history entry: the
     * application row at `index` is replaced and the entry appended.
     */
    method SaveTransition(index: int, updated: Application, h: ApplicationHistory)
      requires Valid()
      requires 0 <= index < |applications| && updated.id == applications[index].id
      requires h.applicationId == updated.id && h.status == updated.status
      modifies this`applications, this`histories
      ensures Valid()
      ensures applications == old(applications)[index := updated]
      ensures histories == old(histories) + [h.(id := |old(histories)| + 1)]
    {
      var e := h.(id := |histories| + 1);
      var apps := applications[index := updated];
      forall i | 0 <= i < |apps|
        ensures LastLoggedStatus(histories + [e], apps[i].id).None?
             || LastLoggedStatus(histories + [e], apps[i].id).value == apps[i].status
      {
        LastLoggedAppend(histories, e, apps[i].id);
      }
      applications, histories := apps, histories + [e];
    }

    /** `ConfirmationRequests.Add(r)` and `SaveChangesAsync` for an application without one. */
    method SaveConfirmationRequest(r: ConfirmationRequest)
      requires Valid()
      requires 1 <= r.applicationId <= |applications|
      requires forall k | 0 <= k < |confirmations| :: confirmations[k].applicationId != r.applicationId
      modifies this`confirmations
      ensures Valid()
      ensures confirmations == old(confirmations) + [r.(id := |old(confirmations)| + 1)]
    {
      confirmations := confirmations + [r.(id := |confirmations| + 1)];
    }

    /**
     * One `Attachments.Add` per uploaded file, then one `SaveChangesAsync`.
     */
    method SaveAttachments(appId: int, fileNames: seq<string>, storedNames: seq<string>, documentType: string)
      requires Valid()
      requires 1 <= appId <= |applications| && |storedNames| == |fileNames|
      modifies this`attachments
      ensures Valid()
      ensures attachments == old(attachments) + AttachmentRows(|old(attachments)|, appId, fileNames, storedNames, documentType)
    {
      ghost var rows := AttachmentRows(|attachments|, appId, fileNames, storedNames, documentType);
      var i := 0;
      while i < |fileNames|
        invariant 0 <= i <= |fileNames|
        invariant attachments == old(attachments) + rows[..i]
      {
        var a := DefaultAttachment().(id := |attachments| + 1, applicationId := appId,
                                      fileName := fileNames[i], filePath := "/uploads/" + storedNames[i],
                                      documentType := documentType);
        assert a == rows[i];
        assert rows[..i + 1] == rows[..i] + [rows[i]];
        attachments := attachments + [a];
        i := i + 1;
      }
      assert rows[..i] == rows;
    }

    /**
     * `Citizens.Add(c)` and `SaveChangesAsync`, which also writes the pending
     * marital-status changes: the batch fails as a whole, changing nothing,
     * when a citizen with `c.cccd` exists.
     */
    method SaveCitizen(pending: set<int>, c: Citizen) returns (saved: bool, id: int)
      requires Valid()
      modifies this`citizens
      ensures Valid()
      ensures saved <==> old(FindCitizen(citizens, c.cccd)).None?
      ensures saved ==> id == |old(citizens)| + 1
      ensures saved ==> citizens == ApplyMarried(old(citizens), pending) + [c.(id := id)]
      ensures !saved ==> citizens == old(citizens)
    {
      id := |citizens| + 1;
      saved := FindCitizen(citizens, c.cccd).None?;
      if saved {
        var marked := ApplyMarried(citizens, pending);
        citizens := marked + [c.(id := id)];
      }
    }

    /**
     * `MarriageRecords.Add(m)` and `SaveChangesAsync`, writing the pending
     * marital-status changes in the same batch.
     */
    method SaveMarriage(pending: set<int>, m: MarriageRecord)
      requires Valid()
      requires 1 <= m.spouse1Id <= |citizens| && 1 <= m.spouse2Id <= |citizens|
      modifies this`citizens, this`marriages
      ensures Valid()
      ensures citizens == ApplyMarried(old(citizens), pending)
      ensures marriages == old(marriages) + [m.(id := |old(marriages)| + 1)]
    {
      citizens := ApplyMarried(citizens, pending);
      marriages := marriages + [m.(id := |marriages| + 1)];
    }
  }
}
