/**
 * The civil-registry records (Models/CitizenRecord.cs): master citizen rows,
 * marriage and birth records, household registries and their members, and
 * temporary residences. Optional references and dates are `Option`s.
 */
module CitizenRecord {
  import opened Wrappers
  import opened Calendar

  const Single: string := "Chưa kết hôn"
  const Married: string := "Đã kết hôn"
  const Active: string := "Active"

  datatype Citizen = Citizen(
    id: int,
    cccd: string,
    fullName: string,
    dateOfBirth: DateTime,
    gender: string,
    placeOfBirth: string,
    ethnicity: string,
    nationality: string,
    maritalStatus: string,
    currentHouseholdId: Option<int>,
    fatherId: Option<int>,
    motherId: Option<int>)

  /** `new Citizen()`: single, Kinh, Vietnamese, no household and unknown parents. */
  function DefaultCitizen(): Citizen {
    Citizen(0, "", "", MinValue, "", "", "Kinh", "Việt Nam", Single, None, None, None)
  }

  datatype MarriageRecord = MarriageRecord(
    id: int,
    registrationNumber: string,
    spouse1Id: int,
    spouse2Id: int,
    marriageDate: DateTime,
    registrationPlace: string,
    status: string,
    divorceDate: Option<DateTime>,
    createdDate: DateTime)

  /** `new MarriageRecord()`: Active and never divorced. */
  function DefaultMarriageRecord(now: DateTime): MarriageRecord {
    MarriageRecord(0, "", 0, 0, MinValue, "", Active, None, now)
  }

  datatype BirthRecord = BirthRecord(
    id: int,
    registrationNumber: string,
    generatedCitizenId: string,
    childFullName: string,
    dateOfBirth: DateTime,
    placeOfBirth: string,
    gender: string,
    childCitizenId: Option<int>,
    fatherId: Option<int>,
    motherId: Option<int>,
    fatherCccd: Option<string>,
    fatherName: Option<string>,
    motherCccd: Option<string>,
    motherName: Option<string>,
    parentsMarriageVerified: bool,
    parentMarriageRecordId: Option<int>,
    registrationPlace: string,
    registrationDate: DateTime,
    signedByOfficialId: Option<string>,
    signedByChairmanId: Option<string>,
    signedDate: Option<DateTime>)

  /** `new BirthRecord()`: parents' marriage not verified, no links to other rows. */
  function DefaultBirthRecord(now: DateTime): BirthRecord {
    BirthRecord(0, "", "", "", MinValue, "", "", None, None, None, None, None, None, None,
                false, None, "", now, None, None, None)
  }

  datatype HouseholdRegistry = HouseholdRegistry(
    id: int,
    householdNumber: string,
    ownerId: int,
    address: string,
    ward: string,
    district: string,
    province: string,
    createdDate: DateTime,
    isActive: bool)

  function DefaultHouseholdRegistry(now: DateTime): HouseholdRegistry {
    HouseholdRegistry(0, "", 0, "", "", "", "", now, true)
  }

  datatype HouseholdMember = HouseholdMember(
    id: int,
    householdId: int,
    citizenId: int,
    relationshipToOwner: string,
    joinDate: DateTime,
    leaveDate: Option<DateTime>,
    isCurrentMember: bool)

  /** `new HouseholdMember()`: a current member who has not left. */
  function DefaultHouseholdMember(now: DateTime): HouseholdMember {
    HouseholdMember(0, 0, 0, "", now, None, true)
  }

  /** The end date carries no bound: the two-year maximum is a comment in the source. */
  datatype TemporaryResidence = TemporaryResidence(
    id: int,
    registrationNumber: string,
    citizenCccd: string,
    citizenName: string,
    citizenPhone: string,
    citizenId: Option<int>,
    address: string,
    ward: string,
    district: string,
    province: string,
    startDate: DateTime,
    endDate: DateTime,
    ownerCccd: string,
    ownerName: string,
    ownerPhone: string,
    ownerConfirmed: bool,
    ownerConfirmedDate: Option<DateTime>,
    registrationType: string,
    status: string,
    createdDate: DateTime,
    signedByOfficialId: Option<string>,
    signedDate: Option<DateTime>,
    expirationNotified: bool)

  /** `new TemporaryResidence()`: a new, Active registration, not yet confirmed by the owner. */
  function DefaultTemporaryResidence(now: DateTime): TemporaryResidence {
    TemporaryResidence(0, "", "", "", "", None, "", "", "", "", MinValue, MinValue, "", "", "",
                       false, None, "New", Active, now, None, None, false)
  }
}
