/**
 * The citizen profile and its household, in two shapes: the complete record the
 * matching engine consumes (`UserProfile`, `FamilyMember`) and the partial record
 * collected step by step and checked by profile validation (`PartialProfile`,
 * `PartialMember`), in which every field may still be absent.
 */
module ProfileTypes {
  import opened Wrappers
  import opened Enums
  import opened Text

  /** Where the citizen lives. An empty string stands for an absent text field. */
  datatype Location = Location(
    state: string,
    district: string,
    pincode: string,
    residenceType: Option<ResidenceType>)

  datatype FamilyMember = FamilyMember(
    id: string,
    relationship: RelationshipType,
    age: int,
    gender: Gender,
    occupation: Option<OccupationType>,
    educationLevel: Option<EducationLevel>,
    annualIncome: Option<int>,
    isDisabled: Option<bool>,
    disabilityPercentage: Option<int>)

  datatype UserProfile = UserProfile(
    id: string,
    age: int,
    gender: Gender,
    occupation: OccupationType,
    ageGroup: AgeRange,
    incomeRange: IncomeLevel,
    annualIncome: Option<int>,
    educationLevel: EducationLevel,
    casteCategory: CasteCategory,
    maritalStatus: MaritalStatus,
    location: Location,
    familyMembers: seq<FamilyMember>,
    familySize: int,
    isDisabled: Option<bool>,
    disabilityPercentage: Option<int>,
    preferredLanguage: SupportedLanguage)

  datatype PartialMember = PartialMember(
    id: Option<string>,
    relationship: Option<RelationshipType>,
    age: Option<int>,
    gender: Option<Gender>,
    educationLevel: Option<EducationLevel>,
    isDisabled: Option<bool>,
    disabilityPercentage: Option<int>)

  datatype PartialProfile = PartialProfile(
    id: Option<string>,
    age: Option<int>,
    gender: Option<Gender>,
    occupation: Option<OccupationType>,
    ageGroup: Option<AgeRange>,
    incomeRange: Option<IncomeLevel>,
    educationLevel: Option<EducationLevel>,
    casteCategory: Option<CasteCategory>,
    maritalStatus: Option<MaritalStatus>,
    location: Option<Location>,
    familyMembers: Option<seq<PartialMember>>,
    familySize: Option<int>,
    isDisabled: Option<bool>,
    disabilityPercentage: Option<int>,
    preferredLanguage: Option<SupportedLanguage>)

  /** A complete household member seen as a partial record (every field present). */
  function MemberAsPartial(m: FamilyMember): PartialMember {
    PartialMember(Some(m.id), Some(m.relationship), Some(m.age), Some(m.gender),
                  m.educationLevel, m.isDisabled, m.disabilityPercentage)
  }

  /** A complete profile seen as a partial record. */
  function AsPartial(p: UserProfile): PartialProfile {
    PartialProfile(
      Some(p.id), Some(p.age), Some(p.gender), Some(p.occupation), Some(p.ageGroup),
      Some(p.incomeRange), Some(p.educationLevel), Some(p.casteCategory),
      Some(p.maritalStatus), Some(p.location),
      Some(seq(|p.familyMembers|, i requires 0 <= i < |p.familyMembers| => MemberAsPartial(p.familyMembers[i]))),
      Some(p.familySize), p.isDisabled, p.disabilityPercentage, Some(p.preferredLanguage))
  }

  /** The profile fields whose presence validation checks; `Name()` is the field's key. */
  datatype ProfileField =
    | IdField | AgeField | GenderField | OccupationField | AgeGroupField | IncomeRangeField
    | EducationLevelField | CasteCategoryField | MaritalStatusField | LocationField
    | FamilySizeField | PreferredLanguageField
  {
    function Name(): string {
      match this
      case IdField => "id"
      case AgeField => "age"
      case GenderField => "gender"
      case OccupationField => "occupation"
      case AgeGroupField => "ageGroup"
      case IncomeRangeField => "incomeRange"
      case EducationLevelField => "educationLevel"
      case CasteCategoryField => "casteCategory"
      case MaritalStatusField => "maritalStatus"
      case LocationField => "location"
      case FamilySizeField => "familySize"
      case PreferredLanguageField => "preferredLanguage"
    }
  }

  /** The household-member fields whose presence validation checks. */
  datatype MemberField = MemberId | MemberRelationship | MemberAge | MemberGender
  {
    function Name(): string {
      match this
      case MemberId => "id"
      case MemberRelationship => "relationship"
      case MemberAge => "age"
      case MemberGender => "gender"
    }
  }

  /** The machine-readable codes of validation errors; `Text()` is the code string. */
  datatype ErrorCode =
    | InvalidAgeNegative | InvalidAgeTooHigh | MissingFamilyMember(field: MemberField)
    | InvalidDisabilityPercentage | MissingLocation | MissingState | MissingDistrict
    | MissingResidenceType | InvalidPincode | AgeGroupMismatch | FamilySizeMismatch
  {
    function Text(): string {
      match this
      case InvalidAgeNegative => "INVALID_AGE_NEGATIVE"
      case InvalidAgeTooHigh => "INVALID_AGE_TOO_HIGH"
      case MissingFamilyMember(f) => "MISSING_FAMILY_MEMBER_" + Upper(f.Name())
      case InvalidDisabilityPercentage => "INVALID_DISABILITY_PERCENTAGE"
      case MissingLocation => "MISSING_LOCATION"
      case MissingState => "MISSING_STATE"
      case MissingDistrict => "MISSING_DISTRICT"
      case MissingResidenceType => "MISSING_RESIDENCE_TYPE"
      case InvalidPincode => "INVALID_PINCODE"
      case AgeGroupMismatch => "AGE_GROUP_MISMATCH"
      case FamilySizeMismatch => "FAMILY_SIZE_MISMATCH"
    }
  }

  /** One finding of profile validation. */
  datatype ValidationError = ValidationError(field: string, message: string, code: ErrorCode)

  datatype ValidationResult = ValidationResult(
    isValid: bool,
    missingFields: seq<ProfileField>,
    errors: seq<ValidationError>)
}
