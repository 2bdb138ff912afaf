/**
 * Explaining a match: one sentence per matched and per missing criterion, a summary
 * sentence, and a personalised paragraph. Each sentence is a template with its
 * parameters; `Text()` renders it.
 */
module Explanation {
  import opened Wrappers
  import opened Enums
  import opened Text
  import opened Seqs
  import opened ProfileTypes
  import opened Values
  import opened SchemeTypes
  import opened Criteria
  import opened Scoring
  import opened Summaries

  /** How template interpolation prints a resolved value. */
  function ValueText(v: Option<Value>): string {
    match v
    case None => "undefined"
    case Some(x) => PrimitiveText(x)
  }

  function PrimitiveText(x: Value): string {
    match x
    case Num(n) => IntToString(n)
    case Str(s) => s
    case Bool(b) => if b then "true" else "false"
    case List(items) => ItemsText(items)
    case Loc(_) => "[object Object]"
  }

  /** An array prints as its elements joined by commas. */
  function ItemsText(items: seq<Value>): string
    decreases items
  {
    if items == [] then ""
    else if |items| == 1 then PrimitiveText(items[0])
    else PrimitiveText(items[0]) + "," + ItemsText(items[1..])
  }

  // ---------------------------------------------------------------------------
  // Templates

  datatype CriterionNote =
    | AgeMet(userValue: Option<Value>)
    | IncomeMet
    | OccupationMet(userValue: Option<Value>)
    | EducationMet
    | CategoryMet
    | RequirementMet(description: string)
    | AgeNotMet(description: string, userValue: Option<Value>)
    | IncomeNotMet(description: string)
    | OccupationNotMet(description: string)
    | RequirementNotMet(description: string)
  {
    /** A sentence about a criterion that holds. */
    predicate Met() {
      AgeMet? || IncomeMet? || OccupationMet? || EducationMet? || CategoryMet? || RequirementMet?
    }

    function Text(): string {
      match this
      case AgeMet(v) => "Your age (" + ValueText(v) + ") meets the requirement."
      case IncomeMet => "Your income level qualifies for this scheme."
      case OccupationMet(v) => "Your occupation as " + ValueText(v) + " qualifies you."
      case EducationMet => "Your education level meets the requirement."
      case CategoryMet => "You belong to an eligible category."
      case RequirementMet(d) => "Requirement met: " + d
      case AgeNotMet(d, v) => "Age requirement not met. Required: " + d + ", Your age: " + ValueText(v) + "."
      case IncomeNotMet(d) => "Income requirement not met. " + d + "."
      case OccupationNotMet(d) => "Occupation requirement not met. Required: " + d + "."
      case RequirementNotMet(d) => "Requirement not met: " + d
    }
  }

  datatype SummaryNote =
    | AllRequirementsMet(schemeName: string)
    | SomeRequirementsMet(met: nat, total: nat)
  {
    function Text(): string {
      match this
      case AllRequirementsMet(name) => "You meet all requirements for " + name + "!"
      case SomeRequirementsMet(met, total) =>
        "You meet " + NatToString(met) + " of " + NatToString(total) + " requirements."
    }
  }

  datatype Part =
    | FullyEligibleNote(occupation: OccupationType, state: string, schemeName: string)
    | MayBeEligibleNote(schemeName: string)
    | BenefitAmountNote(description: string, amount: int)
    | BenefitNote(description: string)
    | MemberNote(relationship: RelationshipType)
  {
    function Text(): string {
      match this
      case FullyEligibleNote(o, s, n) =>
        "Great news! As a " + o.Code() + " from " + s + ", you are fully eligible for " + n + "."
      case MayBeEligibleNote(n) => "Based on your profile, you may be eligible for " + n + "."
      case BenefitAmountNote(d, a) => "This scheme provides " + d + " of ₹" + IntToString(a) + "."
      case BenefitNote(d) => "This scheme provides: " + d + "."
      case MemberNote(r) => "This scheme specifically applies to your family member (" + r.Code() + ")."
    }
  }

  datatype CriterionExplanation = CriterionExplanation(
    criterion: Criterion,
    isMatched: bool,
    userValue: Option<Value>,
    explanation: CriterionNote)

  datatype MatchExplanation = MatchExplanation(
    overallScore: real,
    matchedCriteria: seq<CriterionExplanation>,
    unmatchedCriteria: seq<CriterionExplanation>,
    summary: SummaryNote,
    personalizedExplanation: seq<Part>)

  // ---------------------------------------------------------------------------
  // Choosing the templates

  /**
   * The sentence for one criterion. A met age or occupation criterion shows the user's
   * value; a failed criterion quotes its description; a criterion of another or no type
   * gets the generic sentence.
   */
  function NoteFor(c: Criterion, userValue: Option<Value>, isMatched: bool): (n: CriterionNote)
    ensures n.Met() == isMatched
    ensures !isMatched ==> n.description == c.description
    ensures isMatched && (n.AgeMet? || n.OccupationMet?) ==> n.userValue == userValue
    ensures n.AgeMet? || n.AgeNotMet? <==> c.ctype == Some(AgeRangeCriterion)
    ensures (n.RequirementMet? || n.RequirementNotMet?) ==> n.description == c.description
  {
    if isMatched then
      match c.ctype
      case Some(AgeRangeCriterion) => AgeMet(userValue)
      case Some(IncomeLimit) => IncomeMet
      case Some(Occupation) => OccupationMet(userValue)
      case Some(EducationLevelCriterion) => EducationMet
      case Some(CasteCategoryCriterion) => CategoryMet
      case _ => RequirementMet(c.description)
    else
      match c.ctype
      case Some(AgeRangeCriterion) => AgeNotMet(c.description, userValue)
      case Some(IncomeLimit) => IncomeNotMet(c.description)
      case Some(Occupation) => OccupationNotMet(c.description)
      case _ => RequirementNotMet(c.description)
  }

  /** The household member a result names, looked up by id when the id is non-empty. */
  function ExplainedMember(m: MatchResult, profile: UserProfile): Option<FamilyMember> {
    if m.specificMemberId.Some? && m.specificMemberId.value != ""
    then FindMember(profile.familyMembers, m.specificMemberId.value)
    else None
  }

  function ExplainCriterion(c: Criterion, isMatched: bool, profile: UserProfile, member: Option<FamilyMember>)
    : CriterionExplanation
  {
    var v := ProfileValue(profile, c.field, member);
    CriterionExplanation(c, isMatched, v, NoteFor(c, v, isMatched))
  }

  function ExplainAll(cs: seq<Criterion>, isMatched: bool, profile: UserProfile, member: Option<FamilyMember>)
    : (es: seq<CriterionExplanation>)
    ensures |es| == |cs|
    ensures forall i :: 0 <= i < |cs| ==> es[i] == ExplainCriterion(cs[i], isMatched, profile, member)
  {
    if cs == [] then []
    else ExplainAll(cs[..|cs| - 1], isMatched, profile, member)
         + [ExplainCriterion(cs[|cs| - 1], isMatched, profile, member)]
  }

  function SummaryFor(m: MatchResult): SummaryNote {
    if m.isFullyEligible then AllRequirementsMet(m.scheme.name)
    else SomeRequirementsMet(|m.matchedCriteria|, |m.matchedCriteria| + |m.missingCriteria|)
  }

  /** A benefit amount is shown when it is present and non-zero. */
  function BenefitPart(s: Scheme): seq<Part> {
    if s.benefits == [] then []
    else
      var b := s.benefits[0];
      if b.amount.Some? && b.amount.value != 0 then [BenefitAmountNote(b.description, b.amount.value)]
      else [BenefitNote(b.description)]
  }

  function MemberPart(m: MatchResult): seq<Part> {
    if m.applicableTo == SpecificMember && |m.applicableMembers| > 0
    then [MemberNote(m.applicableMembers[0].relationship)]
    else []
  }

  function PersonalParts(m: MatchResult, profile: UserProfile): seq<Part> {
    (if m.isFullyEligible
     then [FullyEligibleNote(profile.occupation, profile.location.state, m.scheme.name)]
     else [MayBeEligibleNote(m.scheme.name)])
    + BenefitPart(m.scheme) + MemberPart(m)
  }

  function PartsText(parts: seq<Part>): seq<string> {
    if parts == [] then [] else [parts[0].Text()] + PartsText(parts[1..])
  }

  /** The personalised paragraph: the parts joined by single spaces. */
  function PersonalizedText(m: MatchResult, profile: UserProfile): string {
    Join(PartsText(PersonalParts(m, profile)), " ")
  }

  function Explain(m: MatchResult, profile: UserProfile): MatchExplanation {
    var member := ExplainedMember(m, profile);
    MatchExplanation(
      m.eligibilityScore,
      ExplainAll(m.matchedCriteria, true, profile, member),
      ExplainAll(m.missingCriteria, false, profile, member),
      SummaryFor(m),
      PersonalParts(m, profile))
  }

  /** One explanation per criterion, in order, against the values of the given member. */
  method ExplainCriteria(cs: seq<Criterion>, isMatched: bool, profile: UserProfile, member: Option<FamilyMember>)
    returns (es: seq<CriterionExplanation>)
    ensures es == ExplainAll(cs, isMatched, profile, member)
  {
    es := [];
    for i := 0 to |cs|
      invariant es == ExplainAll(cs[..i], isMatched, profile, member)
    {
      var criterion := cs[i];
      assert cs[..i + 1][..i] == cs[..i];
      var userValue := ProfileValue(profile, criterion.field, member);
      es := es + [CriterionExplanation(criterion, isMatched, userValue, NoteFor(criterion, userValue, isMatched))];
    }
    assert cs[..|cs|] == cs;
  }

  /** The explainer: the member lookup, then one loop over the matched criteria and one over the missing ones. */
  method ExplainMatch(m: MatchResult, profile: UserProfile) returns (e: MatchExplanation)
    ensures e == Explain(m, profile)
  {
    var member := ExplainedMember(m, profile);
    var matchedExplanations := ExplainCriteria(m.matchedCriteria, true, profile, member);
    var unmatchedExplanations := ExplainCriteria(m.missingCriteria, false, profile, member);
    var summary := if m.isFullyEligible then AllRequirementsMet(m.scheme.name)
      else SomeRequirementsMet(|m.matchedCriteria|, |m.matchedCriteria| + |m.missingCriteria|);
    e := MatchExplanation(m.eligibilityScore, matchedExplanations, unmatchedExplanations, summary,
                          PersonalParts(m, profile));
  }

  // ---------------------------------------------------------------------------
  // Properties

  /** The member whose values are explained is the one that was scored, when its id is non-empty and first of its kind. */
  lemma ExplainedMemberIsScored(scheme: Scheme, profile: UserProfile, member: Option<FamilyMember>)
    requires member.Some? ==> member.value.id != "" && FindMember(profile.familyMembers, member.value.id) == member
    ensures ExplainedMember(Evaluate(scheme, profile, member), profile) == member
  {
  }

  /**
   * The explanation agrees with the scoring: every matched criterion is explained as met,
   * with a user value that satisfies it; every missing one as not met, with a value that
   * does not. The lists keep the criteria in the result's order.
   */
  lemma ExplainConsistent(scheme: Scheme, profile: UserProfile, member: Option<FamilyMember>)
    requires member.Some? ==> member.value.id != "" && FindMember(profile.familyMembers, member.value.id) == member
    ensures var r := Evaluate(scheme, profile, member);
      var e := Explain(r, profile);
      && |e.matchedCriteria| == |r.matchedCriteria|
      && forall i :: 0 <= i < |e.matchedCriteria| ==>
           var x := e.matchedCriteria[i];
           x.criterion == r.matchedCriteria[i] && x.isMatched && x.explanation.Met()
           && EvaluateCriterion(x.criterion, x.userValue)
    ensures var r := Evaluate(scheme, profile, member);
      var e := Explain(r, profile);
      && |e.unmatchedCriteria| == |r.missingCriteria|
      && forall i :: 0 <= i < |e.unmatchedCriteria| ==>
           var x := e.unmatchedCriteria[i];
           x.criterion == r.missingCriteria[i] && !x.isMatched && !x.explanation.Met()
           && !EvaluateCriterion(x.criterion, x.userValue) && x.criterion.isMandatory
  {
    var r := Evaluate(scheme, profile, member);
    ExplainedMemberIsScored(scheme, profile, member);
    ListsClassified(scheme, profile, member);
  }

  /**
   * The summary sentence: all requirements met exactly for a fully eligible result;
   * otherwise fewer requirements met than counted, the count leaving out the optional
   * criteria that failed.
   */
  lemma SummaryCounts(scheme: Scheme, profile: UserProfile, member: Option<FamilyMember>)
    ensures var r := Evaluate(scheme, profile, member);
      SummaryFor(r).AllRequirementsMet? <==> r.isFullyEligible
    ensures var r := Evaluate(scheme, profile, member);
      SummaryFor(r).AllRequirementsMet? ==> SummaryFor(r).schemeName == scheme.name
    ensures var r := Evaluate(scheme, profile, member);
      SummaryFor(r).SomeRequirementsMet? ==>
        SummaryFor(r).met < SummaryFor(r).total
        && SummaryFor(r).total + |r.partialMatchCriteria| == |scheme.eligibilityCriteria|
  {
    Partition(scheme, profile, member);
    EligibilityAndScore(scheme, profile, member);
  }

  /**
   * The personalised paragraph opens with the full-eligibility sentence exactly for a
   * fully eligible result, then has one sentence about the first benefit (with its amount
   * when that is present and non-zero) and one about the member when the result is for one.
   */
  lemma PersonalPartsShape(m: MatchResult, profile: UserProfile)
    ensures var parts := PersonalParts(m, profile);
      && |parts| == 1 + (if m.scheme.benefits == [] then 0 else 1) + |MemberPart(m)|
      && (parts[0].FullyEligibleNote? <==> m.isFullyEligible)
      && (parts[0].FullyEligibleNote? ==>
            parts[0].occupation == profile.occupation && parts[0].state == profile.location.state)
      && (m.scheme.benefits != [] ==>
            (parts[1].BenefitAmountNote? <==> m.scheme.benefits[0].amount.Some? && m.scheme.benefits[0].amount.value != 0)
            && parts[1].description == m.scheme.benefits[0].description)
      && (|MemberPart(m)| == 1 <==> m.applicableTo == SpecificMember && m.applicableMembers != [])
  {
  }

  /** A result scored for a household member ends its paragraph with that member's relationship. */
  lemma MemberResultNamesRelationship(scheme: Scheme, profile: UserProfile, member: FamilyMember)
    ensures var parts := PersonalParts(Evaluate(scheme, profile, Some(member)), profile);
      parts[|parts| - 1] == MemberNote(member.relationship)
    ensures forall p :: p in PersonalParts(Evaluate(scheme, profile, None), profile) ==> !p.MemberNote?
  {
    ApplicabilityFacts(scheme, profile, Some(member));
    ApplicabilityFacts(scheme, profile, None);
    MemberPartPlacement(Evaluate(scheme, profile, Some(member)), profile);
    MemberPartPlacement(Evaluate(scheme, profile, None), profile);
  }

  /** The member sentence, when there is one, closes the paragraph; an individual result has none. */
  lemma MemberPartPlacement(m: MatchResult, profile: UserProfile)
    ensures m.applicableTo == SpecificMember && m.applicableMembers != [] ==>
      var parts := PersonalParts(m, profile);
      parts[|parts| - 1] == MemberNote(m.applicableMembers[0].relationship)
    ensures m.applicableTo == Individual ==> forall p :: p in PersonalParts(m, profile) ==> !p.MemberNote?
  {
  }
}
