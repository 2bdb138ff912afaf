/** Government scheme records as the catalog holds them. */
module SchemeTypes {
  import opened Wrappers
  import opened Enums
  import opened Values

  /** One eligibility rule. `ctype`, `operator` and `value` are `None` when absent. */
  datatype Criterion = Criterion(
    id: string,
    ctype: Option<CriterionType>,
    field: string,
    operator: Option<ComparisonOperator>,
    value: Option<Value>,
    description: string,
    isMandatory: bool)

  datatype Benefit = Benefit(description: string, amount: Option<int>)

  datatype ApplicationStep = ApplicationStep(
    stepNumber: Option<int>,
    title: string,
    description: string,
    estimatedTime: string,
    onlineAvailable: bool,
    onlineUrl: string)

  datatype RequiredDocument = RequiredDocument(name: string, description: string, isMandatory: bool)

  /** Who published the scheme data; `lastAccessed` is a time in milliseconds. */
  datatype DataSource = DataSource(
    name: string,
    url: string,
    lastAccessed: Option<int>,
    isOfficial: Option<bool>)

  datatype ContactInfo = ContactInfo(
    department: string,
    phone: string,
    email: string,
    websiteUrl: string)

  /**
   * A catalog entry. Times are milliseconds since the epoch. The four `Option` fields are
   * the ones whose absence the validator guards against; the others are always present.
   */
  datatype Scheme = Scheme(
    id: string,
    name: string,
    description: string,
    simplifiedDescription: string,
    benefitType: BenefitType,
    benefitCategories: seq<BenefitType>,
    governmentLevel: GovernmentLevel,
    implementingAgency: string,
    eligibilityCriteria: seq<Criterion>,
    targetDemographics: seq<string>,
    benefits: seq<Benefit>,
    applicationProcess: Option<seq<ApplicationStep>>,
    documents: Option<seq<RequiredDocument>>,
    applicationDeadline: Option<int>,
    isOpenForApplication: bool,
    contactInfo: Option<ContactInfo>,
    source: Option<DataSource>,
    lastUpdated: int,
    isActive: bool)

  datatype SchemeValidationResult = SchemeValidationResult(
    isValid: bool,
    errors: seq<string>,
    warnings: seq<string>)
}
