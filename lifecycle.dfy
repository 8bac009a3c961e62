/**
 * Submission and signing together: the content document each submission form
 * writes is the one the chairman's derivation reads back when the application
 * is signed.
 */
module Lifecycle {
  import opened Wrappers
  import opened Calendar
  import opened Entities
  import opened CitizenRecord
  import opened Store
  import opened Chairman
  import BirthRegistration
  import MarriageRegistration
  import ResidenceRegistration

  /**
   * A signed birth application derives a record exactly when its date of
   * birth parses, and the record carries the form's fields.
   */
  lemma BirthFormDerives(childFullName: string, dateOfBirth: string, placeOfBirth: string, gender: string,
                         fatherName: string, fatherCccd: string, motherName: string, motherCccd: string,
                         appId: int, signer: Option<string>, now: DateTime, random: int,
                         parse: string -> Option<DateTime>)
    requires 100000 <= random < 999999
    ensures var content := BirthRegistration.FormContent(childFullName, dateOfBirth, placeOfBirth, gender,
                                                          fatherName, fatherCccd, motherName, motherCccd);
      var r := BirthDerivation(content, appId, signer, now, random, parse);
      && (r.Success? <==> parse(dateOfBirth).Some?)
      && (r.Success? ==>
            && r.value.registrationNumber == RegistrationNumber("KS", now.date.year, appId)
            && r.value.generatedCitizenId
               == BirthRegistration.GenerateCitizenId(ProvinceCode, gender, now.date.year, random)
            && r.value.childFullName == childFullName && parse(dateOfBirth) == Some(r.value.dateOfBirth)
            && r.value.placeOfBirth == placeOfBirth && r.value.gender == gender
            && r.value.fatherName == Some(fatherName) && r.value.fatherCccd == Some(fatherCccd)
            && r.value.motherName == Some(motherName) && r.value.motherCccd == Some(motherCccd)
            && r.value.signedByChairmanId == signer)
    ensures BirthDerivation(BirthRegistration.FormContent(childFullName, dateOfBirth, placeOfBirth, gender,
                                                          fatherName, fatherCccd, motherName, motherCccd),
                            appId, signer, now, random, parse).Failure? ==>
      BirthDerivation(BirthRegistration.FormContent(childFullName, dateOfBirth, placeOfBirth, gender,
                                                    fatherName, fatherCccd, motherName, motherCccd),
                      appId, signer, now, random, parse).error == BadDate("DateOfBirth")
  {
    var content := BirthRegistration.FormContent(childFullName, dateOfBirth, placeOfBirth, gender,
                                                 fatherName, fatherCccd, motherName, motherCccd);
    BirthDerivationSucceeds(content, appId, signer, now, random, parse);
    assert Present(content, BirthKeys);
  }

  /** A signed temporary-residence application derives a record exactly when both its dates parse. */
  lemma ResidenceFormReadable(form: ResidenceRegistration.ResidenceForm, submittedAt: string, appId: int,
                              signer: Option<string>, now: DateTime, parse: string -> Option<DateTime>)
    ensures ResidenceDerivation(ResidenceRegistration.FormContent(form, submittedAt), appId, signer, now, parse).Success?
        <==> parse(form.startDate).Some? && parse(form.endDate).Some?
  {
    var content := ResidenceRegistration.FormContent(form, submittedAt);
    ResidenceDerivationSucceeds(content, appId, signer, now, parse);
    assert Present(content, ResidenceKeys);
  }

  /** The record derived from a temporary-residence application is Active and carries the form's fields. */
  lemma ResidenceFormDerives(form: ResidenceRegistration.ResidenceForm, submittedAt: string, appId: int,
                             signer: Option<string>, now: DateTime, parse: string -> Option<DateTime>)
    ensures var r := ResidenceDerivation(ResidenceRegistration.FormContent(form, submittedAt), appId, signer, now, parse);
      r.Success? ==>
        && r.value.registrationNumber == RegistrationNumber("TT", now.date.year, appId)
        && r.value.citizenCccd == form.applicantCccd && r.value.citizenName == form.applicantName
        && r.value.citizenPhone == form.applicantPhone
        && parse(form.startDate) == Some(r.value.startDate) && parse(form.endDate) == Some(r.value.endDate)
        && r.value.ownerCccd == form.ownerCccd && r.value.ownerName == form.ownerName
        && r.value.ownerPhone == form.ownerPhone
        && r.value.registrationType == form.registrationType
        && r.value.status == Active && !r.value.ownerConfirmed
  {
    var content := ResidenceRegistration.FormContent(form, submittedAt);
    ResidenceRecordFields(content, appId, signer, now, parse);
    ResidenceDerivationSucceeds(content, appId, signer, now, parse);
    ResidenceRegistration.FormContentValues(form, submittedAt);
  }

  /** The derived record's address is the full address the form composed, with its parts. */
  lemma ResidenceFormAddress(form: ResidenceRegistration.ResidenceForm, submittedAt: string, appId: int,
                             signer: Option<string>, now: DateTime, parse: string -> Option<DateTime>)
    ensures var r := ResidenceDerivation(ResidenceRegistration.FormContent(form, submittedAt), appId, signer, now, parse);
      r.Success? ==>
        && r.value.address == ResidenceRegistration.FullAddress(form.addressDetail, form.ward,
                                                                form.district, form.province)
        && r.value.province == form.province && r.value.district == form.district && r.value.ward == form.ward
  {
    var content := ResidenceRegistration.FormContent(form, submittedAt);
    ResidenceRecordFields(content, appId, signer, now, parse);
    ResidenceRegistration.FormContentValues(form, submittedAt);
  }

  /**
   * A party the registry does not know is created from the form exactly when
   * its date of birth parses, with the form's CCCD, name, gender and that date.
   */
  lemma FormParties(form: MarriageRegistration.MarriageForm, submittedAt: string, now: DateTime,
                    parse: string -> Option<DateTime>)
    ensures var content := MarriageRegistration.FormContent(form, submittedAt);
      && (NewParty(content, Applicant, Some(form.applicantCccd), now, parse).Success? <==>
            parse(form.applicantDob).Some?)
      && (NewParty(content, Spouse, Some(form.spouseCccd), now, parse).Success? <==>
            parse(form.spouseDob).Some?)
      && (var r := NewParty(content, Applicant, Some(form.applicantCccd), now, parse);
          r.Success? ==>
            && r.value.cccd == form.applicantCccd && r.value.fullName == form.applicantName
            && r.value.gender == form.applicantGender && parse(form.applicantDob) == Some(r.value.dateOfBirth))
      && (var r := NewParty(content, Spouse, Some(form.spouseCccd), now, parse);
          r.Success? ==>
            && r.value.cccd == form.spouseCccd && r.value.fullName == form.spouseName
            && r.value.gender == form.spouseGender && parse(form.spouseDob) == Some(r.value.dateOfBirth))
  {
    MarriageRegistration.FormContentValues(form, submittedAt);
  }

  /**
   * A signed marriage application records the marriage exactly when each
   * party the registry does not know has a date of birth that parses, and the
   * two parties are not one unknown CCCD twice (which the unique index
   * refuses on the second insert).
   */
  lemma MarriageFormOutcome(citizens: seq<Citizen>, marriages: seq<MarriageRecord>,
                            form: MarriageRegistration.MarriageForm, submittedAt: string,
                            appId: int, now: DateTime, parse: string -> Option<DateTime>)
    requires CitizenIds(citizens)
    ensures var e := MarriageDerivation(citizens, marriages, MarriageRegistration.FormContent(form, submittedAt),
                                        appId, now, parse);
      var known1 := FindCitizen(citizens, form.applicantCccd).Some?;
      var known2 := FindCitizen(citizens, form.spouseCccd).Some?;
      e.outcome == Derived <==>
        && (known1 || parse(form.applicantDob).Some?)
        && (known2 || parse(form.spouseDob).Some?)
        && (known1 || known2 || form.applicantCccd != form.spouseCccd)
  {
    var content := MarriageRegistration.FormContent(form, submittedAt);
    MarriageRegistration.FormContentValues(form, submittedAt);
    FormParties(form, submittedAt, now, parse);
    var f1, f2 := Some(form.applicantCccd), Some(form.spouseCccd);
    assert MarriageDerivation(citizens, marriages, content, appId, now, parse)
        == MarryParties(citizens, marriages, content, appId, f1, f2, now, parse);
    var s1 := PartyStep(citizens, {}, FindParty(citizens, f1), content, Applicant, f1, now, parse);
    if s1.Success? {
      var s2 := PartyStep(s1.value.citizens, s1.value.pending, FindParty(citizens, f2), content, Spouse, f2,
                          now, parse);
      assert MarriageDerivation(citizens, marriages, content, appId, now, parse).outcome.Derived? <==> s2.Success?;
      if FindParty(citizens, f1).None? {
        var c1 := NewParty(content, Applicant, f1, now, parse).value;
        ApplyNothing(citizens);
        assert s1.value.citizens == citizens + [c1.(id := |citizens| + 1)];
        FindCitizenAppend(citizens, c1.(id := |citizens| + 1), form.spouseCccd);
      }
    }
  }
}
