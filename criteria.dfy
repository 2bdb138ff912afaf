/**
 * Field resolution and criterion evaluation: which value of the profile (or of one
 * household member) a criterion looks at, and how each comparison operator judges it.
 */
module Criteria {
  import opened Wrappers
  import opened Enums
  import opened Text
  import opened ProfileTypes
  import opened Values
  import opened SchemeTypes
  import ProfileValidation

  /** The profile fields a criterion can name. */
  datatype ProfileKey =
    | AgeKey | AgeGroupKey | GenderKey | OccupationKey | EducationLevelKey | IncomeRangeKey
    | AnnualIncomeKey | CasteCategoryKey | MaritalStatusKey | LocationKey | StateKey
    | ResidenceTypeKey | FamilySizeKey | IsDisabledKey | DisabilityPercentageKey
  {
    function Name(): string {
      match this
      case AgeKey => "age"
      case AgeGroupKey => "ageGroup"
      case GenderKey => "gender"
      case OccupationKey => "occupation"
      case EducationLevelKey => "educationLevel"
      case IncomeRangeKey => "incomeRange"
      case AnnualIncomeKey => "annualIncome"
      case CasteCategoryKey => "casteCategory"
      case MaritalStatusKey => "maritalStatus"
      case LocationKey => "location"
      case StateKey => "state"
      case ResidenceTypeKey => "residenceType"
      case FamilySizeKey => "familySize"
      case IsDisabledKey => "isDisabled"
      case DisabilityPercentageKey => "disabilityPercentage"
    }

    /** Fields describing the household as a whole: never taken from a member. */
    predicate IsHouseholdField() {
      this in {IncomeRangeKey, CasteCategoryKey, MaritalStatusKey, LocationKey, StateKey,
               ResidenceTypeKey, FamilySizeKey}
    }
  }

  /** The field a criterion names, if the switch knows it. */
  function KeyOf(field: string): (k: Option<ProfileKey>)
    ensures k.Some? ==> k.value.Name() == field
  {
    match field
    case "age" => Some(AgeKey)
    case "ageGroup" => Some(AgeGroupKey)
    case "gender" => Some(GenderKey)
    case "occupation" => Some(OccupationKey)
    case "educationLevel" => Some(EducationLevelKey)
    case "incomeRange" => Some(IncomeRangeKey)
    case "annualIncome" => Some(AnnualIncomeKey)
    case "casteCategory" => Some(CasteCategoryKey)
    case "maritalStatus" => Some(MaritalStatusKey)
    case "location" => Some(LocationKey)
    case "state" => Some(StateKey)
    case "residenceType" => Some(ResidenceTypeKey)
    case "familySize" => Some(FamilySizeKey)
    case "isDisabled" => Some(IsDisabledKey)
    case "disabilityPercentage" => Some(DisabilityPercentageKey)
    case _ => None
  }

  /** Every field name the switch knows is recognised as that field. */
  lemma KeyOfName(k: ProfileKey)
    ensures KeyOf(k.Name()) == Some(k)
  {
  }

  function OptNum(x: Option<int>): Option<Value> {
    if x.Some? then Some(Num(x.value)) else None
  }

  function OptBool(x: Option<bool>): Option<Value> {
    if x.Some? then Some(Bool(x.value)) else None
  }

  /**
   * The value of a known field for the profile, or for `member` when one is given: the
   * member's own age, gender and disability data; the member's occupation, education and
   * income falling back to the profile's; the household fields always from the profile.
   */
  function KeyValue(profile: UserProfile, k: ProfileKey, member: Option<FamilyMember>): (r: Option<Value>)
    ensures r.None? ==> k in {AnnualIncomeKey, ResidenceTypeKey, IsDisabledKey, DisabilityPercentageKey}
    ensures r.Some? && r.value.Loc? <==> k == LocationKey
  {
    match k
    case AgeKey => Some(Num(if member.Some? then member.value.age else profile.age))
    case AgeGroupKey =>
      Some(Str(if member.Some? then ProfileValidation.AgeGroupOf(member.value.age).Code() else profile.ageGroup.Code()))
    case GenderKey => Some(Str(if member.Some? then member.value.gender.Code() else profile.gender.Code()))
    case OccupationKey =>
      Some(Str(if member.Some? && member.value.occupation.Some? then member.value.occupation.value.Code()
               else profile.occupation.Code()))
    case EducationLevelKey =>
      Some(Str(if member.Some? && member.value.educationLevel.Some? then member.value.educationLevel.value.Code()
               else profile.educationLevel.Code()))
    case IncomeRangeKey => Some(Str(profile.incomeRange.Code()))
    case AnnualIncomeKey =>
      if member.Some? && member.value.annualIncome.Some? then OptNum(member.value.annualIncome)
      else OptNum(profile.annualIncome)
    case CasteCategoryKey => Some(Str(profile.casteCategory.Code()))
    case MaritalStatusKey => Some(Str(profile.maritalStatus.Code()))
    case LocationKey => Some(Loc(profile.location))
    case StateKey => Some(Str(profile.location.state))
    case ResidenceTypeKey =>
      if profile.location.residenceType.Some? then Some(Str(profile.location.residenceType.value.Code())) else None
    case FamilySizeKey => Some(Num(profile.familySize))
    case IsDisabledKey => OptBool(if member.Some? then member.value.isDisabled else profile.isDisabled)
    case DisabilityPercentageKey =>
      OptNum(if member.Some? then member.value.disabilityPercentage else profile.disabilityPercentage)
  }

  /** The value a criterion's field resolves to; `None` stands for `undefined`. */
  function ProfileValue(profile: UserProfile, field: string, member: Option<FamilyMember>): Option<Value> {
    match KeyOf(field)
    case None => None
    case Some(k) => KeyValue(profile, k, member)
  }

  /** Household fields resolve the same with or without a member. */
  lemma HouseholdFieldsIgnoreMember(profile: UserProfile, k: ProfileKey, member: FamilyMember)
    requires k.IsHouseholdField()
    ensures ProfileValue(profile, k.Name(), Some(member)) == ProfileValue(profile, k.Name(), None)
  {
    KeyOfName(k);
  }

  /** A member's own age, gender and age group are what a member criterion sees. */
  lemma MemberOwnFields(profile: UserProfile, member: FamilyMember)
    ensures ProfileValue(profile, "age", Some(member)) == Some(Num(member.age))
    ensures ProfileValue(profile, "gender", Some(member)) == Some(Str(member.gender.Code()))
    ensures ProfileValue(profile, "ageGroup", Some(member)) ==
      Some(Str(ProfileValidation.AgeGroupOf(member.age).Code()))
  {
    KeyOfName(AgeKey);
    KeyOfName(GenderKey);
    KeyOfName(AgeGroupKey);
  }

  /** Without a member, the profile's own fields are seen. */
  lemma ProfileOwnFields(profile: UserProfile)
    ensures ProfileValue(profile, "age", None) == Some(Num(profile.age))
    ensures ProfileValue(profile, "occupation", None) == Some(Str(profile.occupation.Code()))
    ensures ProfileValue(profile, "familySize", None) == Some(Num(profile.familySize))
  {
    KeyOfName(AgeKey);
    KeyOfName(OccupationKey);
    KeyOfName(FamilySizeKey);
  }

  /** A member without an occupation of their own is judged by the profile's occupation. */
  lemma OccupationFallsBack(profile: UserProfile, member: FamilyMember)
    requires member.occupation.None?
    ensures ProfileValue(profile, "occupation", Some(member)) == ProfileValue(profile, "occupation", None)
  {
    KeyOfName(OccupationKey);
  }

  /**
   * A member's own occupation, education level and annual income win when present, and
   * the last two fall back to the profile's otherwise. The disability fields are the
   * member's own with no fallback: a member without them resolves to `undefined` whatever
   * the profile says.
   */
  lemma MemberFieldsResolve(profile: UserProfile, member: FamilyMember)
    ensures member.occupation.Some? ==>
      ProfileValue(profile, "occupation", Some(member)) == Some(Str(member.occupation.value.Code()))
    ensures member.educationLevel.Some? ==>
      ProfileValue(profile, "educationLevel", Some(member)) == Some(Str(member.educationLevel.value.Code()))
    ensures member.educationLevel.None? ==>
      ProfileValue(profile, "educationLevel", Some(member)) == ProfileValue(profile, "educationLevel", None)
    ensures member.annualIncome.Some? ==>
      ProfileValue(profile, "annualIncome", Some(member)) == Some(Num(member.annualIncome.value))
    ensures member.annualIncome.None? ==>
      ProfileValue(profile, "annualIncome", Some(member)) == ProfileValue(profile, "annualIncome", None)
    ensures member.isDisabled.Some? ==>
      ProfileValue(profile, "isDisabled", Some(member)) == Some(Bool(member.isDisabled.value))
    ensures member.isDisabled.None? ==> ProfileValue(profile, "isDisabled", Some(member)) == None
    ensures member.disabilityPercentage.Some? ==>
      ProfileValue(profile, "disabilityPercentage", Some(member)) == Some(Num(member.disabilityPercentage.value))
    ensures member.disabilityPercentage.None? ==> ProfileValue(profile, "disabilityPercentage", Some(member)) == None
  {
    KeyOfName(OccupationKey);
    KeyOfName(EducationLevelKey);
    KeyOfName(AnnualIncomeKey);
    KeyOfName(IsDisabledKey);
    KeyOfName(DisabilityPercentageKey);
  }

  // ---------------------------------------------------------------------------
  // Evaluation

  /** `===` against a possibly undefined criterion value. */
  predicate StrictEq(v: Value, cv: Option<Value>) {
    cv.Some? && StrictEquals(v, cv.value)
  }

  /** `items.includes(v)`. */
  predicate Includes(items: seq<Value>, v: Value) {
    exists k :: 0 <= k < |items| && StrictEquals(items[k], v)
  }

  /** Both sides are numbers and `cmp` holds between them. */
  predicate NumCompare(v: Value, cv: Option<Value>, op: ComparisonOperator)
    requires op in {GreaterThan, LessThan, GreaterThanOrEquals, LessThanOrEquals}
  {
    v.Num? && cv.Some? && cv.value.Num? &&
    match op
    case GreaterThan => v.n > cv.value.n
    case LessThan => v.n < cv.value.n
    case GreaterThanOrEquals => v.n >= cv.value.n
    case LessThanOrEquals => v.n <= cv.value.n
  }

  /** `BETWEEN`: a two-element numeric pair `[min, max]` with `min <= v <= max`. */
  predicate InRange(v: Value, cv: Option<Value>) {
    && v.Num? && cv.Some? && cv.value.List? && |cv.value.items| == 2
    && cv.value.items[0].Num? && cv.value.items[1].Num?
    && cv.value.items[0].n <= v.n <= cv.value.items[1].n
  }

  /** Case-insensitive substring test on strings. */
  predicate ContainsIgnoringCase(text: string, pat: string) {
    Text.Contains(Lower(text), Lower(pat))
  }

  /** `CONTAINS`: a string holding the pattern, or a list with a string element holding it. */
  predicate ContainsMatch(v: Value, cv: Option<Value>) {
    cv.Some? && cv.value.Str? &&
      (if v.Str? then ContainsIgnoringCase(v.s, cv.value.s)
       else v.List? && exists k :: 0 <= k < |v.items| && v.items[k].Str? && ContainsIgnoringCase(v.items[k].s, cv.value.s))
  }

  /** Whether the resolved `value` satisfies the criterion. */
  function EvaluateCriterion(c: Criterion, value: Option<Value>): (r: bool)
    ensures value.None? ==> (r <==> !c.isMandatory)
    ensures value.Some? && c.operator.None? ==> !r
  {
    if value.None? then !c.isMandatory
    else
      var v, cv := value.value, c.value;
      match c.operator
      case None => false
      case Some(op) =>
        match op
        case Equals => StrictEq(v, cv)
        case NotEquals => !StrictEq(v, cv)
        case GreaterThan => NumCompare(v, cv, op)
        case LessThan => NumCompare(v, cv, op)
        case GreaterThanOrEquals => NumCompare(v, cv, op)
        case LessThanOrEquals => NumCompare(v, cv, op)
        case In => cv.Some? && cv.value.List? && Includes(cv.value.items, v)
        case NotIn => !(cv.Some? && cv.value.List?) || !Includes(cv.value.items, v)
        case Between => InRange(v, cv)
        case Contains => ContainsMatch(v, cv)
  }

  /** `IN` and `NOT_IN` over a value that is not a list: fail closed and fail open. */
  lemma MembershipOverNonList(c: Criterion, v: Value)
    requires c.value.None? || !c.value.value.List?
    ensures c.operator == Some(In) ==> !EvaluateCriterion(c, Some(v))
    ensures c.operator == Some(NotIn) ==> EvaluateCriterion(c, Some(v))
  {
  }

  /** `IN` and `NOT_IN` over a list are each other's negation. */
  lemma MembershipComplement(c: Criterion, v: Value)
    requires c.value.Some? && c.value.value.List?
    ensures EvaluateCriterion(c.(operator := Some(In)), Some(v)) == !EvaluateCriterion(c.(operator := Some(NotIn)), Some(v))
  {
  }

  /** `BETWEEN` holds exactly for a number inside a two-element numeric pair. */
  lemma BetweenExact(c: Criterion, v: Value)
    requires c.operator == Some(Between)
    ensures EvaluateCriterion(c, Some(v)) <==>
      v.Num? && c.value.Some? && c.value.value.List? && |c.value.value.items| == 2
      && c.value.value.items[0].Num? && c.value.value.items[1].Num?
      && c.value.value.items[0].n <= v.n <= c.value.value.items[1].n
  {
  }

  /** `EQUALS` and `NOT_EQUALS` are each other's negation, and a location never equals anything. */
  lemma EqualityComplement(c: Criterion, v: Value)
    ensures EvaluateCriterion(c.(operator := Some(Equals)), Some(v)) == !EvaluateCriterion(c.(operator := Some(NotEquals)), Some(v))
    ensures v.Loc? ==> !EvaluateCriterion(c.(operator := Some(Equals)), Some(v))
  {
  }

  /** Only numbers pass the ordering operators; `>=` is `>` or equality of numbers. */
  lemma OrderingOnNumbers(c: Criterion, v: Value)
    requires c.operator.Some? && c.operator.value in {GreaterThan, LessThan, GreaterThanOrEquals, LessThanOrEquals}
    ensures EvaluateCriterion(c, Some(v)) ==> v.Num? && c.value.Some? && c.value.value.Num?
    ensures c.operator == Some(GreaterThanOrEquals) ==>
      (EvaluateCriterion(c, Some(v)) <==>
        EvaluateCriterion(c.(operator := Some(GreaterThan)), Some(v)) || (v.Num? && c.value == Some(v)))
  {
  }

  /** `CONTAINS` ignores letter case on both sides. */
  lemma ContainsIgnoresCase(c: Criterion, s: string, pat: string)
    requires c.operator == Some(Contains) && c.value == Some(Str(pat))
    ensures EvaluateCriterion(c, Some(Str(s))) == EvaluateCriterion(c, Some(Str(Lower(s))))
    ensures EvaluateCriterion(c.(value := Some(Str(Lower(pat)))), Some(Str(s))) == EvaluateCriterion(c, Some(Str(s)))
  {
    LowerIdempotent(s);
    LowerIdempotent(pat);
  }

  /** Whether the criterion holds for the profile (or the given member). */
  function CriterionHolds(c: Criterion, profile: UserProfile, member: Option<FamilyMember>): bool {
    EvaluateCriterion(c, ProfileValue(profile, c.field, member))
  }

  /** A criterion on a field the switch does not know holds exactly when it is optional. */
  lemma UnknownFieldOptional(c: Criterion, profile: UserProfile, member: Option<FamilyMember>)
    requires KeyOf(c.field).None?
    ensures CriterionHolds(c, profile, member) <==> !c.isMandatory
  {
  }
}
