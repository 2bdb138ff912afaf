/**
 * Profile validation: the age-to-group mapping, the age bounds, required-field
 * detection, household-member checks, location checks and the family-completeness
 * predicate.
 */
module ProfileValidation {
  import opened Wrappers
  import opened Enums
  import opened Text
  import opened Seqs
  import opened ProfileTypes

  /** The fields a complete profile must carry, in the order they are reported. */
  const RequiredProfileFields: seq<ProfileField> :=
    [IdField, AgeField, GenderField, OccupationField, AgeGroupField, IncomeRangeField,
     EducationLevelField, CasteCategoryField, MaritalStatusField, LocationField,
     FamilySizeField, PreferredLanguageField]

  /** The fields every household member must carry. */
  const RequiredMemberFields: seq<MemberField> := [MemberId, MemberRelationship, MemberAge, MemberGender]

  const MaxAge := 120
  const MemberFieldPrefix := "familyMember."

  // ---------------------------------------------------------------------------
  // Age groups

  /** The first age of a group (the infant group has no lower bound). */
  function BandStart(g: AgeRange): int {
    match g
    case Infant => 0
    case Child => 6
    case Youth => 15
    case Adult => 25
    case MiddleAged => 45
    case Senior => 60
  }

  function NextGroup(g: AgeRange): AgeRange {
    match g
    case Infant => Child
    case Child => Youth
    case Youth => Adult
    case Adult => MiddleAged
    case MiddleAged => Senior
    case Senior => Senior
  }

  /** The half-open age band of a group: from its first age up to the next group's first age. */
  predicate InBand(age: int, g: AgeRange) {
    && (g == Infant || BandStart(g) <= age)
    && (g == Senior || age < BandStart(NextGroup(g)))
  }

  /** The age group of an age: the unique group whose band holds it. */
  function AgeGroupOf(age: int): (r: AgeRange)
    ensures forall g :: InBand(age, g) <==> g == r
  {
    if age < 6 then Infant
    else if age < 15 then Child
    else if age < 25 then Youth
    else if age < 45 then Adult
    else if age < 60 then MiddleAged
    else Senior
  }

  /** Older never means a younger group. */
  lemma AgeGroupMonotone(a: int, b: int)
    requires a <= b
    ensures AgeGroupOf(a).Ordinal() <= AgeGroupOf(b).Ordinal()
  {
  }

  // ---------------------------------------------------------------------------
  // Single checks

  /** The age check: an error below 0 or above 120, none otherwise. */
  function ValidateAge(age: int): (r: Option<ValidationError>)
    ensures r.None? <==> 0 <= age <= MaxAge
    ensures r.Some? ==> r.value.field == "age"
    ensures r.Some? && r.value.code == InvalidAgeNegative <==> age < 0
    ensures r.Some? && r.value.code == InvalidAgeTooHigh <==> age > MaxAge
  {
    if age < 0 then Some(ValidationError("age", "Age cannot be negative", InvalidAgeNegative))
    else if age > MaxAge then
      Some(ValidationError("age", "Age seems unrealistic. Please verify.", InvalidAgeTooHigh))
    else None
  }

  predicate HasCode(es: seq<ValidationError>, code: ErrorCode) {
    exists k :: 0 <= k < |es| && es[k].code == code
  }

  lemma HasCodeConcat(a: seq<ValidationError>, b: seq<ValidationError>, code: ErrorCode)
    ensures HasCode(a + b, code) <==> HasCode(a, code) || HasCode(b, code)
  {
    if HasCode(a + b, code) {
      var k :| 0 <= k < |a + b| && (a + b)[k].code == code;
      if k >= |a| {
        assert b[k - |a|].code == code;
      }
    }
    if HasCode(b, code) {
      var k :| 0 <= k < |b| && b[k].code == code;
      assert (a + b)[|a| + k].code == code;
    }
    if HasCode(a, code) {
      var k :| 0 <= k < |a| && a[k].code == code;
      assert (a + b)[k].code == code;
    }
  }

  predicate ValidPercentage(pct: int) {
    0 <= pct <= 100
  }

  /** `/^[1-9][0-9]{5}$/`: six digits, the first not zero. */
  predicate ValidPincode(s: string) {
    |s| == 6 && '1' <= s[0] <= '9' && forall i :: 1 <= i < 6 ==> '0' <= s[i] <= '9'
  }

  // ---------------------------------------------------------------------------
  // Household members

  predicate MemberFieldPresent(m: PartialMember, field: MemberField) {
    match field
    case MemberId => m.id.Some?
    case MemberRelationship => m.relationship.Some?
    case MemberAge => m.age.Some?
    case MemberGender => m.gender.Some?
  }

  function MissingMemberError(field: MemberField): ValidationError {
    ValidationError(MemberFieldPrefix + field.Name(), "Family member " + field.Name() + " is required",
                    MissingFamilyMember(field))
  }

  /** One error per absent field among `fields`, in list order. */
  function MissingMemberErrors(fields: seq<MemberField>, m: PartialMember): seq<ValidationError> {
    if fields == [] then []
    else
      var last := fields[|fields| - 1];
      MissingMemberErrors(fields[..|fields| - 1], m)
        + (if MemberFieldPresent(m, last) then [] else [MissingMemberError(last)])
  }

  function CountAbsent(fields: seq<MemberField>, m: PartialMember): nat {
    if fields == [] then 0
    else CountAbsent(fields[..|fields| - 1], m) + (if MemberFieldPresent(m, fields[|fields| - 1]) then 0 else 1)
  }

  lemma {:induction false} MissingMemberErrorsFacts(fields: seq<MemberField>, m: PartialMember, f: MemberField)
    ensures HasCode(MissingMemberErrors(fields, m), MissingFamilyMember(f)) <==> f in fields && !MemberFieldPresent(m, f)
    ensures |MissingMemberErrors(fields, m)| == CountAbsent(fields, m)
    ensures forall k :: 0 <= k < |MissingMemberErrors(fields, m)| ==>
      MissingMemberErrors(fields, m)[k].code.MissingFamilyMember? && IsMemberField(MissingMemberErrors(fields, m)[k].field)
  {
    if fields != [] {
      var init, last := fields[..|fields| - 1], fields[|fields| - 1];
      MissingMemberErrorsFacts(init, m, f);
      var tail := if MemberFieldPresent(m, last) then [] else [MissingMemberError(last)];
      HasCodeConcat(MissingMemberErrors(init, m), tail, MissingFamilyMember(f));
      assert fields == init + [last];
      if !MemberFieldPresent(m, last) {
        assert (MemberFieldPrefix + last.Name())[..|MemberFieldPrefix|] == MemberFieldPrefix;
        assert tail[0].code == MissingFamilyMember(last);
      }
    }
  }

  function MemberAgeErrors(m: PartialMember): seq<ValidationError> {
    if m.age.Some? && ValidateAge(m.age.value).Some? then
      var e := ValidateAge(m.age.value).value;
      [ValidationError(MemberFieldPrefix + e.field, e.message, e.code)]
    else []
  }

  function DisabilityError(field: string): ValidationError {
    ValidationError(field, "Disability percentage must be between 0 and 100", InvalidDisabilityPercentage)
  }

  /** The percentage is checked only when the disability flag is set. */
  predicate DisabilityOutOfRange(isDisabled: Option<bool>, pct: Option<int>) {
    isDisabled == Some(true) && pct.Some? && !ValidPercentage(pct.value)
  }

  function MemberDisabilityErrors(m: PartialMember): seq<ValidationError> {
    if DisabilityOutOfRange(m.isDisabled, m.disabilityPercentage) then
      [DisabilityError(MemberFieldPrefix + "disabilityPercentage")]
    else []
  }

  /** What validating one household member reports. */
  function MemberErrors(m: PartialMember): seq<ValidationError> {
    MissingMemberErrors(RequiredMemberFields, m) + MemberAgeErrors(m) + MemberDisabilityErrors(m)
  }

  predicate IsMemberField(f: string) {
    |f| >= |MemberFieldPrefix| && f[..|MemberFieldPrefix|] == MemberFieldPrefix
  }

  /** The codes a member check can produce. */
  predicate MemberCode(c: ErrorCode) {
    c.InvalidAgeNegative? || c.InvalidAgeTooHigh? || c.MissingFamilyMember? || c.InvalidDisabilityPercentage?
  }

  predicate MemberHasAge(m: PartialMember) {
    m.age.Some?
  }

  /**
   * One error for each absent id, relationship, age or gender; the age-bound error of a
   * present age; and the percentage error only when the disability flag is set and the
   * percentage lies outside 0..100. Every field is reported under `familyMember.`.
   */
  lemma MemberErrorsReport(m: PartialMember, f: MemberField)
    ensures |MemberErrors(m)| == CountAbsent(RequiredMemberFields, m)
      + (if m.age.Some? && ValidateAge(m.age.value).Some? then 1 else 0)
      + (if DisabilityOutOfRange(m.isDisabled, m.disabilityPercentage) then 1 else 0)
    ensures HasCode(MemberErrors(m), MissingFamilyMember(f)) <==> !MemberFieldPresent(m, f)
    ensures HasCode(MemberErrors(m), InvalidDisabilityPercentage) <==> DisabilityOutOfRange(m.isDisabled, m.disabilityPercentage)
    ensures forall k :: 0 <= k < |MemberErrors(m)| ==> IsMemberField(MemberErrors(m)[k].field) && MemberCode(MemberErrors(m)[k].code)
  {
    MissingMemberErrorsFacts(RequiredMemberFields, m, f);
    MemberErrorsCodes(m, f);
    MemberErrorsFields(m);
  }

  lemma MemberErrorsCodes(m: PartialMember, f: MemberField)
    ensures HasCode(MemberErrors(m), MissingFamilyMember(f)) <==> !MemberFieldPresent(m, f)
    ensures HasCode(MemberErrors(m), InvalidDisabilityPercentage) <==> DisabilityOutOfRange(m.isDisabled, m.disabilityPercentage)
  {
    var a, b, c := MissingMemberErrors(RequiredMemberFields, m), MemberAgeErrors(m), MemberDisabilityErrors(m);
    MissingMemberErrorsFacts(RequiredMemberFields, m, f);
    HasCodeConcat(a, b, MissingFamilyMember(f));
    HasCodeConcat(a + b, c, MissingFamilyMember(f));
    HasCodeConcat(a, b, InvalidDisabilityPercentage);
    HasCodeConcat(a + b, c, InvalidDisabilityPercentage);
    assert f in RequiredMemberFields by {
      match f
      case MemberId => assert RequiredMemberFields[0] == f;
      case MemberRelationship => assert RequiredMemberFields[1] == f;
      case MemberAge => assert RequiredMemberFields[2] == f;
      case MemberGender => assert RequiredMemberFields[3] == f;
    }
    if DisabilityOutOfRange(m.isDisabled, m.disabilityPercentage) {
      assert c[0].code == InvalidDisabilityPercentage;
    }
  }

  lemma MemberErrorsFields(m: PartialMember)
    ensures forall k :: 0 <= k < |MemberErrors(m)| ==> IsMemberField(MemberErrors(m)[k].field) && MemberCode(MemberErrors(m)[k].code)
  {
    MissingMemberErrorsFacts(RequiredMemberFields, m, MemberId);
    assert (MemberFieldPrefix + "age")[..|MemberFieldPrefix|] == MemberFieldPrefix;
    assert (MemberFieldPrefix + "disabilityPercentage")[..|MemberFieldPrefix|] == MemberFieldPrefix;
  }

  /** The member validator, pushing one error at a time. */
  method ValidateFamilyMember(m: PartialMember) returns (errors: seq<ValidationError>)
    ensures errors == MemberErrors(m)
  {
    errors := [];
    for i := 0 to |RequiredMemberFields|
      invariant errors == MissingMemberErrors(RequiredMemberFields[..i], m)
    {
      var field := RequiredMemberFields[i];
      assert RequiredMemberFields[..i + 1][..i] == RequiredMemberFields[..i];
      if !MemberFieldPresent(m, field) {
        errors := errors + [MissingMemberError(field)];
      }
    }
    assert RequiredMemberFields[..|RequiredMemberFields|] == RequiredMemberFields;
    if m.age.Some? {
      var ageError := ValidateAge(m.age.value);
      if ageError.Some? {
        errors := errors + [ValidationError(MemberFieldPrefix + ageError.value.field,
                                            ageError.value.message, ageError.value.code)];
      }
    }
    if m.isDisabled == Some(true) && m.disabilityPercentage.Some? {
      if m.disabilityPercentage.value < 0 || m.disabilityPercentage.value > 100 {
        errors := errors + [DisabilityError(MemberFieldPrefix + "disabilityPercentage")];
      }
    }
  }

  // ---------------------------------------------------------------------------
  // Location

  function StateErrors(l: Location): seq<ValidationError> {
    if l.state == "" then [ValidationError("location.state", "State is required", MissingState)] else []
  }

  function DistrictErrors(l: Location): seq<ValidationError> {
    if l.district == "" then [ValidationError("location.district", "District is required", MissingDistrict)] else []
  }

  function ResidenceErrors(l: Location): seq<ValidationError> {
    if l.residenceType.None? then
      [ValidationError("location.residenceType", "Residence type is required", MissingResidenceType)]
    else []
  }

  /** A pincode is checked only when one is given. */
  predicate BadPincode(l: Location) {
    l.pincode != "" && !ValidPincode(l.pincode)
  }

  function PincodeErrors(l: Location): seq<ValidationError> {
    if BadPincode(l) then [ValidationError("location.pincode", "Invalid pincode format", InvalidPincode)] else []
  }

  /** What validating a (possibly absent) location reports. */
  function LocationErrors(loc: Option<Location>): seq<ValidationError> {
    match loc
    case None => [ValidationError("location", "Location is required", MissingLocation)]
    case Some(l) => StateErrors(l) + DistrictErrors(l) + ResidenceErrors(l) + PincodeErrors(l)
  }

  /** How many of the four checks on a present location fail. */
  function LocationDefects(l: Location): nat {
    (if l.state == "" then 1 else 0) + (if l.district == "" then 1 else 0)
      + (if l.residenceType.None? then 1 else 0) + (if BadPincode(l) then 1 else 0)
  }

  predicate LocationCode(c: ErrorCode) {
    c.MissingLocation? || c.MissingState? || c.MissingDistrict? || c.MissingResidenceType? || c.InvalidPincode?
  }

  /**
   * An absent location yields exactly one error, `MISSING_LOCATION`; a present one yields
   * one error per failed check and `INVALID_PINCODE` exactly when a given pincode is
   * malformed.
   */
  lemma LocationErrorsReport(loc: Option<Location>)
    ensures loc.None? ==> LocationErrors(loc) == [ValidationError("location", "Location is required", MissingLocation)]
    ensures loc.Some? ==> !HasCode(LocationErrors(loc), MissingLocation)
    ensures loc.Some? ==> |LocationErrors(loc)| == LocationDefects(loc.value)
    ensures loc.Some? ==> (HasCode(LocationErrors(loc), MissingState) <==> loc.value.state == "")
    ensures loc.Some? ==> (HasCode(LocationErrors(loc), MissingDistrict) <==> loc.value.district == "")
    ensures loc.Some? ==> (HasCode(LocationErrors(loc), MissingResidenceType) <==> loc.value.residenceType.None?)
    ensures loc.Some? ==> (HasCode(LocationErrors(loc), InvalidPincode) <==> BadPincode(loc.value))
    ensures forall k :: 0 <= k < |LocationErrors(loc)| ==> LocationCode(LocationErrors(loc)[k].code)
  {
    if loc.Some? {
      PresentLocationShape(loc.value);
      PresentLocationCodes(loc.value);
    }
  }

  /** A present location's report: its length and the kinds of error in it. */
  lemma PresentLocationShape(l: Location)
    ensures |LocationErrors(Some(l))| == LocationDefects(l)
    ensures forall k :: 0 <= k < |LocationErrors(Some(l))| ==> LocationCode(LocationErrors(Some(l))[k].code)
  {
    var a, b, c, d := StateErrors(l), DistrictErrors(l), ResidenceErrors(l), PincodeErrors(l);
    assert LocationErrors(Some(l)) == a + b + c + d;
    assert forall k :: 0 <= k < |a| ==> a[k].code == MissingState;
    assert forall k :: 0 <= k < |b| ==> b[k].code == MissingDistrict;
    assert forall k :: 0 <= k < |c| ==> c[k].code == MissingResidenceType;
    assert forall k :: 0 <= k < |d| ==> d[k].code == InvalidPincode;
  }

  lemma HasCodeFour(a: seq<ValidationError>, b: seq<ValidationError>, c: seq<ValidationError>,
                    d: seq<ValidationError>, code: ErrorCode)
    ensures HasCode(a + b + c + d, code) <==> HasCode(a, code) || HasCode(b, code) || HasCode(c, code) || HasCode(d, code)
  {
    HasCodeConcat(a, b, code);
    HasCodeConcat(a + b, c, code);
    HasCodeConcat(a + b + c, d, code);
  }

  /** A list of at most one error, of the given code. */
  lemma HasCodeSingle(es: seq<ValidationError>, expected: ErrorCode, code: ErrorCode)
    requires |es| <= 1 && forall k :: 0 <= k < |es| ==> es[k].code == expected
    ensures HasCode(es, code) <==> es != [] && code == expected
  {
    if es != [] && code == expected {
      assert es[0].code == code;
    }
  }

  /** Which codes a present location's report holds. */
  lemma PresentLocationHas(l: Location, code: ErrorCode)
    ensures HasCode(LocationErrors(Some(l)), code) <==>
      (code == MissingState && l.state == "") || (code == MissingDistrict && l.district == "")
      || (code == MissingResidenceType && l.residenceType.None?) || (code == InvalidPincode && BadPincode(l))
  {
    var a, b, c, d := StateErrors(l), DistrictErrors(l), ResidenceErrors(l), PincodeErrors(l);
    HasCodeFour(a, b, c, d, code);
    HasCodeSingle(a, MissingState, code);
    HasCodeSingle(b, MissingDistrict, code);
    HasCodeSingle(c, MissingResidenceType, code);
    HasCodeSingle(d, InvalidPincode, code);
  }

  /** A present location's report holds each code exactly when its check fails. */
  lemma PresentLocationCodes(l: Location)
    ensures !HasCode(LocationErrors(Some(l)), MissingLocation)
    ensures HasCode(LocationErrors(Some(l)), MissingState) <==> l.state == ""
    ensures HasCode(LocationErrors(Some(l)), MissingDistrict) <==> l.district == ""
    ensures HasCode(LocationErrors(Some(l)), MissingResidenceType) <==> l.residenceType.None?
    ensures HasCode(LocationErrors(Some(l)), InvalidPincode) <==> BadPincode(l)
  {
    PresentLocationHas(l, MissingLocation);
    PresentLocationHas(l, MissingState);
    PresentLocationHas(l, MissingDistrict);
    PresentLocationHas(l, MissingResidenceType);
    PresentLocationHas(l, InvalidPincode);
  }

  method ValidateLocation(loc: Option<Location>) returns (errors: seq<ValidationError>)
    ensures errors == LocationErrors(loc)
  {
    errors := [];
    if loc.None? {
      errors := errors + [ValidationError("location", "Location is required", MissingLocation)];
      return;
    }
    var l := loc.value;
    if l.state == "" {
      errors := errors + [ValidationError("location.state", "State is required", MissingState)];
    }
    if l.district == "" {
      errors := errors + [ValidationError("location.district", "District is required", MissingDistrict)];
    }
    if l.residenceType.None? {
      errors := errors + [ValidationError("location.residenceType", "Residence type is required", MissingResidenceType)];
    }
    if l.pincode != "" && !ValidPincode(l.pincode) {
      errors := errors + [ValidationError("location.pincode", "Invalid pincode format", InvalidPincode)];
    }
  }

  // ---------------------------------------------------------------------------
  // Whole profile

  predicate FieldPresent(p: PartialProfile, field: ProfileField) {
    match field
    case IdField => p.id.Some?
    case AgeField => p.age.Some?
    case GenderField => p.gender.Some?
    case OccupationField => p.occupation.Some?
    case AgeGroupField => p.ageGroup.Some?
    case IncomeRangeField => p.incomeRange.Some?
    case EducationLevelField => p.educationLevel.Some?
    case CasteCategoryField => p.casteCategory.Some?
    case MaritalStatusField => p.maritalStatus.Some?
    case LocationField => p.location.Some?
    case FamilySizeField => p.familySize.Some?
    case PreferredLanguageField => p.preferredLanguage.Some?
  }

  function AbsentIn(p: PartialProfile): ProfileField -> bool {
    f => !FieldPresent(p, f)
  }

  /** The required fields the profile lacks, in the order of the required list. */
  function MissingProfileFields(p: PartialProfile): seq<ProfileField> {
    Filter(RequiredProfileFields, AbsentIn(p))
  }

  /** `missingFields` names exactly the absent required fields. */
  lemma MissingFieldsExact(p: PartialProfile, f: ProfileField)
    ensures f in MissingProfileFields(p) <==> !FieldPresent(p, f)
  {
    var r := MissingProfileFields(p);
    if f in r {
      var k :| 0 <= k < |r| && r[k] == f;
    }
    var i := match f
      case IdField => 0 case AgeField => 1 case GenderField => 2 case OccupationField => 3
      case AgeGroupField => 4 case IncomeRangeField => 5 case EducationLevelField => 6
      case CasteCategoryField => 7 case MaritalStatusField => 8 case LocationField => 9
      case FamilySizeField => 10 case PreferredLanguageField => 11;
    assert RequiredProfileFields[i] == f;
  }

  /** A complete profile lacks no required field. */
  lemma CompleteProfileHasNoMissingFields(up: UserProfile)
    ensures MissingProfileFields(AsPartial(up)) == []
  {
    FilterNone(RequiredProfileFields, AbsentIn(AsPartial(up)));
  }

  /** A member error restated for position `index` of the household list. */
  function Reprefix(e: ValidationError, index: nat): ValidationError {
    var rest := if IsMemberField(e.field) then e.field[|MemberFieldPrefix|..] else e.field;
    ValidationError("familyMembers[" + NatToString(index) + "]." + rest, e.message, e.code)
  }

  function ReprefixAll(es: seq<ValidationError>, index: nat): (r: seq<ValidationError>)
    ensures |r| == |es|
    ensures forall k :: 0 <= k < |es| ==> r[k] == Reprefix(es[k], index)
  {
    if es == [] then [] else ReprefixAll(es[..|es| - 1], index) + [Reprefix(es[|es| - 1], index)]
  }

  /** The errors of every member, each re-prefixed with its position. */
  function MembersErrors(ms: seq<PartialMember>): seq<ValidationError> {
    if ms == [] then []
    else MembersErrors(ms[..|ms| - 1]) + ReprefixAll(MemberErrors(ms[|ms| - 1]), |ms| - 1)
  }

  function ProfileAgeErrors(p: PartialProfile): seq<ValidationError> {
    if p.age.Some? && ValidateAge(p.age.value).Some? then [ValidateAge(p.age.value).value] else []
  }

  predicate AgeGroupDisagrees(p: PartialProfile) {
    p.age.Some? && p.ageGroup.Some? && p.ageGroup.value != AgeGroupOf(p.age.value)
  }

  function MismatchError(age: int): ValidationError {
    ValidationError("ageGroup",
      "Age group should be " + AgeGroupOf(age).Code() + " for age " + IntToString(age),
      AgeGroupMismatch)
  }

  function MismatchErrors(p: PartialProfile): seq<ValidationError> {
    if AgeGroupDisagrees(p) then [MismatchError(p.age.value)] else []
  }

  predicate FamilySizeTooSmall(p: PartialProfile) {
    p.familySize.Some? && p.familyMembers.Some? && p.familySize.value < |p.familyMembers.value|
  }

  function FamilySizeError(): ValidationError {
    ValidationError("familySize", "Family size cannot be less than number of family members", FamilySizeMismatch)
  }

  function SizeErrors(p: PartialProfile): seq<ValidationError> {
    if FamilySizeTooSmall(p) then [FamilySizeError()] else []
  }

  function ProfileDisabilityErrors(p: PartialProfile): seq<ValidationError> {
    if DisabilityOutOfRange(p.isDisabled, p.disabilityPercentage) then [DisabilityError("disabilityPercentage")] else []
  }

  function HouseholdErrors(p: PartialProfile): seq<ValidationError> {
    if p.familyMembers.Some? then MembersErrors(p.familyMembers.value) else []
  }

  /** Every error validating the profile reports, in the order it reports them. */
  function ProfileErrors(p: PartialProfile): seq<ValidationError> {
    ProfileAgeErrors(p) + MismatchErrors(p) + LocationErrors(p.location) + HouseholdErrors(p)
      + SizeErrors(p) + ProfileDisabilityErrors(p)
  }

  method CollectMissingFields(p: PartialProfile) returns (missingFields: seq<ProfileField>)
    ensures missingFields == MissingProfileFields(p)
  {
    missingFields := [];
    for i := 0 to |RequiredProfileFields|
      invariant missingFields == Filter(RequiredProfileFields[..i], AbsentIn(p))
    {
      var field := RequiredProfileFields[i];
      FilterSnoc(RequiredProfileFields[..i], field, AbsentIn(p));
      assert RequiredProfileFields[..i + 1] == RequiredProfileFields[..i] + [field];
      if !FieldPresent(p, field) {
        missingFields := missingFields + [field];
      }
    }
    assert RequiredProfileFields[..|RequiredProfileFields|] == RequiredProfileFields;
  }

  /** The inner loop of the household validator: one member's errors under its position. */
  method ReprefixErrors(memberErrors: seq<ValidationError>, i: nat) returns (errors: seq<ValidationError>)
    ensures errors == ReprefixAll(memberErrors, i)
  {
    errors := [];
    for j := 0 to |memberErrors|
      invariant errors == ReprefixAll(memberErrors[..j], i)
    {
      assert memberErrors[..j + 1][..j] == memberErrors[..j];
      errors := errors + [Reprefix(memberErrors[j], i)];
    }
    assert memberErrors[..|memberErrors|] == memberErrors;
  }

  method ValidateHousehold(ms: seq<PartialMember>) returns (errors: seq<ValidationError>)
    ensures errors == MembersErrors(ms)
  {
    errors := [];
    for i := 0 to |ms|
      invariant errors == MembersErrors(ms[..i])
    {
      var memberErrors := ValidateFamilyMember(ms[i]);
      var reprefixed := ReprefixErrors(memberErrors, i);
      assert ms[..i + 1][..i] == ms[..i];
      assert ms[..i + 1][i] == ms[i];
      errors := errors + reprefixed;
    }
    assert ms[..|ms|] == ms;
  }

  method CheckProfileAge(p: PartialProfile) returns (errors: seq<ValidationError>)
    ensures errors == ProfileAgeErrors(p) + MismatchErrors(p)
  {
    errors := [];
    if p.age.Some? {
      var ageError := ValidateAge(p.age.value);
      if ageError.Some? {
        errors := errors + [ageError.value];
      }
    }
    if p.age.Some? && p.ageGroup.Some? {
      var expected := AgeGroupOf(p.age.value);
      if p.ageGroup.value != expected {
        errors := errors + [MismatchError(p.age.value)];
      }
    }
  }

  method CheckHouseholdSize(p: PartialProfile) returns (errors: seq<ValidationError>)
    ensures errors == SizeErrors(p) + ProfileDisabilityErrors(p)
  {
    errors := [];
    if p.familySize.Some? && p.familyMembers.Some? {
      if p.familySize.value < |p.familyMembers.value| {
        errors := errors + [FamilySizeError()];
      }
    }
    if p.isDisabled == Some(true) && p.disabilityPercentage.Some? {
      if p.disabilityPercentage.value < 0 || p.disabilityPercentage.value > 100 {
        errors := errors + [DisabilityError("disabilityPercentage")];
      }
    }
  }

  /** The profile validator: required fields, then each check in turn. */
  method ValidateProfile(p: PartialProfile) returns (r: ValidationResult)
    ensures r.missingFields == MissingProfileFields(p)
    ensures r.errors == ProfileErrors(p)
    ensures r.isValid <==> r.missingFields == [] && r.errors == []
  {
    var missingFields := CollectMissingFields(p);
    var ageErrors := CheckProfileAge(p);
    var locationErrors := ValidateLocation(p.location);
    var memberErrors: seq<ValidationError> := [];
    if p.familyMembers.Some? {
      memberErrors := ValidateHousehold(p.familyMembers.value);
    }
    assert memberErrors == HouseholdErrors(p);
    var tailErrors := CheckHouseholdSize(p);
    var errors := ageErrors + locationErrors + memberErrors + tailErrors;
    ProfileErrorsParts(p);
    r := ValidationResult(|missingFields| == 0 && |errors| == 0, missingFields, errors);
  }

  lemma ProfileErrorsParts(p: PartialProfile)
    ensures ProfileErrors(p) == (ProfileAgeErrors(p) + MismatchErrors(p)) + LocationErrors(p.location)
      + HouseholdErrors(p) + (SizeErrors(p) + ProfileDisabilityErrors(p))
  {
    var a, b, c, d, e, f := ProfileAgeErrors(p), MismatchErrors(p), LocationErrors(p.location),
                            HouseholdErrors(p), SizeErrors(p), ProfileDisabilityErrors(p);
    assert a + b + c + d + e + f == (a + b) + c + d + (e + f);
  }

  // ---------------------------------------------------------------------------
  // Properties of the whole-profile report

  lemma {:induction false} MembersErrorsCodes(ms: seq<PartialMember>)
    ensures forall k :: 0 <= k < |MembersErrors(ms)| ==> MemberCode(MembersErrors(ms)[k].code)
  {
    if ms != [] {
      MembersErrorsCodes(ms[..|ms| - 1]);
      MemberErrorsReport(ms[|ms| - 1], MemberId);
    }
  }

  /** Each member's own errors reappear, in order, under `familyMembers[i].`. */
  lemma {:induction false} MemberErrorsReprefixed(ms: seq<PartialMember>, i: nat, k: nat)
    requires i < |ms| && k < |MemberErrors(ms[i])|
    ensures Reprefix(MemberErrors(ms[i])[k], i) in MembersErrors(ms)
  {
    var init := ms[..|ms| - 1];
    if i < |ms| - 1 {
      assert init[i] == ms[i];
      MemberErrorsReprefixed(init, i, k);
    } else {
      assert ReprefixAll(MemberErrors(ms[i]), i)[k] == Reprefix(MemberErrors(ms[i])[k], i);
    }
  }

  /** The parts of the report other than the two whole-profile consistency checks. */
  lemma PartsCodes(p: PartialProfile, code: ErrorCode)
    requires !MemberCode(code) && !LocationCode(code)
    ensures HasCode(ProfileErrors(p), code) <==>
      HasCode(ProfileAgeErrors(p) + MismatchErrors(p), code)
      || HasCode(SizeErrors(p) + ProfileDisabilityErrors(p), code)
  {
    var a, b, c, d, e, f := ProfileAgeErrors(p), MismatchErrors(p), LocationErrors(p.location),
                            HouseholdErrors(p), SizeErrors(p), ProfileDisabilityErrors(p);
    LocationErrorsReport(p.location);
    if p.familyMembers.Some? {
      MembersErrorsCodes(p.familyMembers.value);
    }
    HasCodeConcat(a, b, code);
    HasCodeConcat(a + b, c, code);
    HasCodeConcat(a + b + c, d, code);
    HasCodeConcat(a + b + c + d, e, code);
    HasCodeConcat(a + b + c + d + e, f, code);
    HasCodeConcat(e, f, code);
    assert a + b + c + d + e + f == ProfileErrors(p);
  }

  /** `AGE_GROUP_MISMATCH` is reported exactly when age and group are both given and disagree. */
  lemma AgeGroupMismatchReported(p: PartialProfile)
    ensures HasCode(ProfileErrors(p), AgeGroupMismatch) <==> AgeGroupDisagrees(p)
  {
    PartsCodes(p, AgeGroupMismatch);
    HasCodeConcat(ProfileAgeErrors(p), MismatchErrors(p), AgeGroupMismatch);
    HasCodeConcat(SizeErrors(p), ProfileDisabilityErrors(p), AgeGroupMismatch);
    if AgeGroupDisagrees(p) {
      assert MismatchErrors(p)[0].code == AgeGroupMismatch;
    }
  }

  /** `FAMILY_SIZE_MISMATCH` is reported exactly when the size is below the member count. */
  lemma FamilySizeMismatchReported(p: PartialProfile)
    ensures HasCode(ProfileErrors(p), FamilySizeMismatch) <==> FamilySizeTooSmall(p)
  {
    PartsCodes(p, FamilySizeMismatch);
    HasCodeConcat(ProfileAgeErrors(p), MismatchErrors(p), FamilySizeMismatch);
    HasCodeConcat(SizeErrors(p), ProfileDisabilityErrors(p), FamilySizeMismatch);
    if FamilySizeTooSmall(p) {
      assert SizeErrors(p)[0].code == FamilySizeMismatch;
    }
  }

  /** An out-of-bounds age is reported against the field `age` with the age check's code. */
  lemma AgeBoundsReported(p: PartialProfile)
    requires p.age.Some? && !(0 <= p.age.value <= MaxAge)
    ensures ValidateAge(p.age.value).Some?
    ensures ValidateAge(p.age.value).value in ProfileErrors(p)
    ensures ValidateAge(p.age.value).value.field == "age"
  {
    assert ProfileErrors(p)[0] == ValidateAge(p.age.value).value;
  }

  // ---------------------------------------------------------------------------
  // Family completeness

  predicate MemberComplete(m: PartialMember) {
    && m.age.Some? && m.gender.Some? && m.relationship.Some?
    && (m.age.value >= 6 ==> m.educationLevel.Some?)
  }

  /** A household is complete when every member has age, gender, relationship and, from age 6, an education level. */
  predicate FamilyProfileComplete(p: PartialProfile) {
    p.familyMembers.None? || |p.familyMembers.value| == 0
      || forall k :: 0 <= k < |p.familyMembers.value| ==> MemberComplete(p.familyMembers.value[k])
  }

  /** In a complete household the member validator never reports a missing age, gender or relationship. */
  lemma CompleteFamilyHasBasics(p: PartialProfile, k: nat)
    requires FamilyProfileComplete(p) && p.familyMembers.Some? && k < |p.familyMembers.value|
    ensures !HasCode(MemberErrors(p.familyMembers.value[k]), MissingFamilyMember(MemberAge))
    ensures !HasCode(MemberErrors(p.familyMembers.value[k]), MissingFamilyMember(MemberGender))
    ensures !HasCode(MemberErrors(p.familyMembers.value[k]), MissingFamilyMember(MemberRelationship))
  {
    var m := p.familyMembers.value[k];
    MemberErrorsReport(m, MemberAge);
    MemberErrorsReport(m, MemberGender);
    MemberErrorsReport(m, MemberRelationship);
  }

  /** For a complete profile, family completeness comes down to education levels from age 6. */
  lemma CompleteProfileFamily(up: UserProfile)
    ensures FamilyProfileComplete(AsPartial(up)) <==>
      forall k :: 0 <= k < |up.familyMembers| && up.familyMembers[k].age >= 6 ==> up.familyMembers[k].educationLevel.Some?
  {
    var ms := AsPartial(up).familyMembers.value;
    assert forall k :: 0 <= k < |ms| ==> ms[k] == MemberAsPartial(up.familyMembers[k]);
  }
}
