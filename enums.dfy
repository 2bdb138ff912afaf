/**
 * The categorical vocabulary of the system. Every enumeration of the source is a
 * string enum; `Code()` gives the string a value carries at run time, which is what
 * criteria compare against.
 */
module Enums {

  datatype BenefitType =
    | Scholarship | Healthcare | FinancialAid | Education | Employment | Housing
    | Agriculture | SocialSecurity | Disability | WomenWelfare | ChildWelfare | SeniorCitizen
  {
    /** The human-readable category name shown for a group of results. */
    function Name(): string {
      match this
      case Scholarship => "Scholarships"
      case Healthcare => "Healthcare"
      case FinancialAid => "Financial Aid"
      case Education => "Education"
      case Employment => "Employment"
      case Housing => "Housing"
      case Agriculture => "Agriculture"
      case SocialSecurity => "Social Security"
      case Disability => "Disability Support"
      case WomenWelfare => "Women Welfare"
      case ChildWelfare => "Child Welfare"
      case SeniorCitizen => "Senior Citizen"
    }
  }

  /** Every benefit type, once each. */
  const AllBenefitTypes: seq<BenefitType> :=
    [Scholarship, Healthcare, FinancialAid, Education, Employment, Housing,
     Agriculture, SocialSecurity, Disability, WomenWelfare, ChildWelfare, SeniorCitizen]

  datatype OccupationType =
    | Farmer | Student | DailyWageWorker | GovernmentEmployee | PrivateEmployee | Teacher
    | Unemployed | SelfEmployed | Homemaker | Retired | OtherOccupation
  {
    function Code(): string {
      match this
      case Farmer => "farmer"
      case Student => "student"
      case DailyWageWorker => "daily_wage_worker"
      case GovernmentEmployee => "government_employee"
      case PrivateEmployee => "private_employee"
      case Teacher => "teacher"
      case Unemployed => "unemployed"
      case SelfEmployed => "self_employed"
      case Homemaker => "homemaker"
      case Retired => "retired"
      case OtherOccupation => "other"
    }
  }

  datatype CriterionType =
    | AgeRangeCriterion | IncomeLimit | Occupation | EducationLevelCriterion | FamilySize
    | LocationCriterion | GenderCriterion | CasteCategoryCriterion | DisabilityStatus
    | MaritalStatusCriterion | ResidenceTypeCriterion

  datatype ComparisonOperator =
    | Equals | NotEquals | GreaterThan | LessThan | GreaterThanOrEquals | LessThanOrEquals
    | In | NotIn | Between | Contains

  datatype RelationshipType =
    | Self | Spouse | ChildOf | Parent | Sibling | Grandparent | Grandchild | OtherRelation
  {
    function Code(): string {
      match this
      case Self => "self"
      case Spouse => "spouse"
      case ChildOf => "child"
      case Parent => "parent"
      case Sibling => "sibling"
      case Grandparent => "grandparent"
      case Grandchild => "grandchild"
      case OtherRelation => "other"
    }
  }

  datatype EducationLevel =
    | NoFormalEducation | Primary | Secondary | HigherSecondary | Graduate | PostGraduate
    | Doctorate | Diploma | Vocational
  {
    function Code(): string {
      match this
      case NoFormalEducation => "no_formal_education"
      case Primary => "primary"
      case Secondary => "secondary"
      case HigherSecondary => "higher_secondary"
      case Graduate => "graduate"
      case PostGraduate => "post_graduate"
      case Doctorate => "doctorate"
      case Diploma => "diploma"
      case Vocational => "vocational"
    }
  }

  datatype IncomeLevel = Bpl | LowIncome | LowerMiddle | Middle | UpperMiddle | HighIncome
  {
    function Code(): string {
      match this
      case Bpl => "bpl"
      case LowIncome => "low"
      case LowerMiddle => "lower_middle"
      case Middle => "middle"
      case UpperMiddle => "upper_middle"
      case HighIncome => "high"
    }
  }

  datatype AgeRange = Infant | Child | Youth | Adult | MiddleAged | Senior
  {
    function Code(): string {
      match this
      case Infant => "infant"
      case Child => "child"
      case Youth => "youth"
      case Adult => "adult"
      case MiddleAged => "middle_aged"
      case Senior => "senior"
    }

    /** Position in the life-cycle order, youngest first. */
    function Ordinal(): nat {
      match this
      case Infant => 0
      case Child => 1
      case Youth => 2
      case Adult => 3
      case MiddleAged => 4
      case Senior => 5
    }
  }

  datatype Gender = Male | Female | OtherGender | PreferNotToSay
  {
    function Code(): string {
      match this
      case Male => "male"
      case Female => "female"
      case OtherGender => "other"
      case PreferNotToSay => "prefer_not_to_say"
    }
  }

  datatype CasteCategory = General | Obc | Sc | St | Ews | Minority
  {
    function Code(): string {
      match this
      case General => "general"
      case Obc => "obc"
      case Sc => "sc"
      case St => "st"
      case Ews => "ews"
      case Minority => "minority"
    }
  }

  datatype MaritalStatus = Single | Married | Divorced | Widowed | Separated
  {
    function Code(): string {
      match this
      case Single => "single"
      case Married => "married"
      case Divorced => "divorced"
      case Widowed => "widowed"
      case Separated => "separated"
    }
  }

  datatype ResidenceType = Rural | Urban | SemiUrban
  {
    function Code(): string {
      match this
      case Rural => "rural"
      case Urban => "urban"
      case SemiUrban => "semi_urban"
    }
  }

  datatype GovernmentLevel = Central | StateLevel | Local

  datatype SupportedLanguage =
    | English | Hindi | Tamil | Telugu | Kannada | Malayalam | Marathi | Bengali
    | Gujarati | Punjabi | Odia
}
