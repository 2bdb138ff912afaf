/**
 * Scoring one scheme against the profile or one household member: the split of the
 * criteria into matched, missing and partial, the 0–100 eligibility score, full
 * eligibility and priority.
 */
module Scoring {
  import opened Wrappers
  import opened Seqs
  import opened ProfileTypes
  import opened SchemeTypes
  import opened Criteria

  datatype Priority = High | Medium | Low
  {
    /** The ranking order: high first. */
    function Rank(): nat {
      match this
      case High => 0
      case Medium => 1
      case Low => 2
    }
  }

  datatype Applicability = Individual | SpecificMember

  datatype MatchResult = MatchResult(
    scheme: Scheme,
    eligibilityScore: real,
    isFullyEligible: bool,
    applicableMembers: seq<FamilyMember>,
    applicableTo: Applicability,
    specificMemberId: Option<string>,
    matchedCriteria: seq<Criterion>,
    missingCriteria: seq<Criterion>,
    partialMatchCriteria: seq<Criterion>,
    priority: Priority)

  // ---------------------------------------------------------------------------
  // Criterion classes

  function Mandatory(): Criterion -> bool {
    (c: Criterion) => c.isMandatory
  }

  function Optional(): Criterion -> bool {
    (c: Criterion) => !c.isMandatory
  }

  function HoldsFor(profile: UserProfile, member: Option<FamilyMember>): Criterion -> bool {
    c => CriterionHolds(c, profile, member)
  }

  function FailsFor(profile: UserProfile, member: Option<FamilyMember>): Criterion -> bool {
    c => !CriterionHolds(c, profile, member)
  }

  /** Failed and mandatory: a missing criterion. */
  function MissingFor(profile: UserProfile, member: Option<FamilyMember>): Criterion -> bool {
    c => !CriterionHolds(c, profile, member) && c.isMandatory
  }

  /** Failed and optional: a partial criterion. */
  function PartialFor(profile: UserProfile, member: Option<FamilyMember>): Criterion -> bool {
    c => !CriterionHolds(c, profile, member) && !c.isMandatory
  }

  function MatchedMandatoryFor(profile: UserProfile, member: Option<FamilyMember>): Criterion -> bool {
    c => CriterionHolds(c, profile, member) && c.isMandatory
  }

  function MatchedOptionalFor(profile: UserProfile, member: Option<FamilyMember>): Criterion -> bool {
    c => CriterionHolds(c, profile, member) && !c.isMandatory
  }

  // ---------------------------------------------------------------------------
  // Score and priority

  /**
   * The score from the four counts: 0 unless every mandatory criterion matched; then 70
   * for the mandatory part and up to 30 in proportion to the optional criteria matched
   * (the full 70 or 30 when a part has no criteria).
   */
  function Score(total: nat, mandatory: nat, matchedMandatory: nat, matched: nat): real {
    if mandatory == 0 || matchedMandatory == mandatory then
      var mandatoryScore := if mandatory > 0 then (matchedMandatory as real / mandatory as real) * 70.0 else 70.0;
      var optionalScore := if total > mandatory
        then ((matched as real - matchedMandatory as real) / (total as real - mandatory as real)) * 30.0
        else 30.0;
      mandatoryScore + optionalScore
    else 0.0
  }

  lemma RatioBounds(a: real, b: real)
    requires 0.0 <= a <= b && b > 0.0
    ensures 0.0 <= (a / b) * 30.0 <= 30.0
  {
    assert a / b <= 1.0 by {
      assert (a / b) * b == a;
    }
  }

  lemma DivSelf(b: real)
    requires b > 0.0
    ensures b / b == 1.0
  {
  }

  /** The score is 0, or between 70 and 100; it is positive exactly when no mandatory criterion failed. */
  lemma ScoreRange(total: nat, mandatory: nat, matchedMandatory: nat, matched: nat)
    requires matchedMandatory <= mandatory <= total
    requires matchedMandatory <= matched && matched - matchedMandatory <= total - mandatory
    ensures Score(total, mandatory, matchedMandatory, matched) == 0.0
      || 70.0 <= Score(total, mandatory, matchedMandatory, matched) <= 100.0
    ensures Score(total, mandatory, matchedMandatory, matched) > 0.0 <==> matchedMandatory == mandatory
    ensures matchedMandatory == mandatory && matched - matchedMandatory == total - mandatory ==>
      Score(total, mandatory, matchedMandatory, matched) == 100.0
  {
    if mandatory == 0 || matchedMandatory == mandatory {
      var mandatoryScore := if mandatory > 0 then (matchedMandatory as real / mandatory as real) * 70.0 else 70.0;
      if mandatory > 0 {
        DivSelf(mandatory as real);
      }
      assert mandatoryScore == 70.0;
      if total > mandatory {
        var a, b := matched as real - matchedMandatory as real, total as real - mandatory as real;
        RatioBounds(a, b);
        assert Score(total, mandatory, matchedMandatory, matched) == 70.0 + (a / b) * 30.0;
        if a == b {
          DivSelf(b);
        }
      }
    }
  }

  /** High for a fully eligible match scoring at least 80, low below 50, medium otherwise. */
  function PriorityOf(fullyEligible: bool, score: real): (p: Priority)
    ensures p == High <==> fullyEligible && score >= 80.0
    ensures p == Low <==> !(fullyEligible && score >= 80.0) && score < 50.0
  {
    if fullyEligible && score >= 80.0 then High
    else if score < 50.0 then Low
    else Medium
  }

  // ---------------------------------------------------------------------------
  // Evaluating one scheme

  /** The result of scoring `scheme` for the profile, or for `member` when one is given. */
  function Evaluate(scheme: Scheme, profile: UserProfile, member: Option<FamilyMember>): MatchResult {
    var cs := scheme.eligibilityCriteria;
    var matched := Filter(cs, HoldsFor(profile, member));
    var missing := Filter(cs, MissingFor(profile, member));
    var partial := Filter(cs, PartialFor(profile, member));
    var score := Score(|cs|, |Filter(cs, Mandatory())|, |Filter(matched, Mandatory())|, |matched|);
    var full := |missing| == 0;
    MatchResult(
      scheme, score, full,
      if member.Some? then [member.value] else [],
      if member.Some? then SpecificMember else Individual,
      if member.Some? then Some(member.value.id) else None,
      matched, missing, partial,
      PriorityOf(full, score))
  }

  /** How the three lists grow by one criterion. */
  lemma ClassifyStep(cs: seq<Criterion>, i: nat, profile: UserProfile, member: Option<FamilyMember>)
    requires i < |cs|
    ensures var c, holds := cs[i], CriterionHolds(cs[i], profile, member);
      && Filter(cs[..i + 1], HoldsFor(profile, member))
         == Filter(cs[..i], HoldsFor(profile, member)) + (if holds then [c] else [])
      && Filter(cs[..i + 1], MissingFor(profile, member))
         == Filter(cs[..i], MissingFor(profile, member)) + (if !holds && c.isMandatory then [c] else [])
      && Filter(cs[..i + 1], PartialFor(profile, member))
         == Filter(cs[..i], PartialFor(profile, member)) + (if !holds && !c.isMandatory then [c] else [])
  {
    assert cs[..i + 1] == cs[..i] + [cs[i]];
    FilterSnoc(cs[..i], cs[i], HoldsFor(profile, member));
    FilterSnoc(cs[..i], cs[i], MissingFor(profile, member));
    FilterSnoc(cs[..i], cs[i], PartialFor(profile, member));
  }

  /** One pass over the criteria, pushing each onto the matched, missing or partial list. */
  method SplitCriteria(cs: seq<Criterion>, profile: UserProfile, member: Option<FamilyMember>)
    returns (matched: seq<Criterion>, missing: seq<Criterion>, partial: seq<Criterion>)
    ensures matched == Filter(cs, HoldsFor(profile, member))
    ensures missing == Filter(cs, MissingFor(profile, member))
    ensures partial == Filter(cs, PartialFor(profile, member))
  {
    matched, missing, partial := [], [], [];
    for i := 0 to |cs|
      invariant matched == Filter(cs[..i], HoldsFor(profile, member))
      invariant missing == Filter(cs[..i], MissingFor(profile, member))
      invariant partial == Filter(cs[..i], PartialFor(profile, member))
    {
      var c := cs[i];
      ClassifyStep(cs, i, profile, member);
      var value := ProfileValue(profile, c.field, member);
      var isMatched := EvaluateCriterion(c, value);
      if isMatched {
        matched := matched + [c];
      } else if c.isMandatory {
        missing := missing + [c];
      } else {
        partial := partial + [c];
      }
    }
    assert cs[..|cs|] == cs;
  }

  /** The evaluator: split the criteria, then score and prioritise. */
  method EvaluateScheme(scheme: Scheme, profile: UserProfile, member: Option<FamilyMember>) returns (r: MatchResult)
    ensures r == Evaluate(scheme, profile, member)
  {
    var cs := scheme.eligibilityCriteria;
    var matched, missing, partial := SplitCriteria(cs, profile, member);
    var total := |cs|;
    var mandatory := |Filter(cs, Mandatory())|;
    var matchedMandatory := |Filter(matched, Mandatory())|;
    var score := Score(total, mandatory, matchedMandatory, |matched|);
    var full := |missing| == 0;
    var priority := Medium;
    if full && score >= 80.0 {
      priority := High;
    } else if score < 50.0 {
      priority := Low;
    }
    if member.Some? {
      r := MatchResult(scheme, score, full, [member.value], SpecificMember, Some(member.value.id),
                       matched, missing, partial, priority);
    } else {
      r := MatchResult(scheme, score, full, [], Individual, None, matched, missing, partial, priority);
    }
  }

  // ---------------------------------------------------------------------------
  // Properties

  /** Every criterion lands in exactly one of the three lists. */
  lemma Partition(scheme: Scheme, profile: UserProfile, member: Option<FamilyMember>)
    ensures var r := Evaluate(scheme, profile, member);
      multiset(r.matchedCriteria) + multiset(r.missingCriteria) + multiset(r.partialMatchCriteria)
      == multiset(scheme.eligibilityCriteria)
    ensures var r := Evaluate(scheme, profile, member);
      |r.matchedCriteria| + |r.missingCriteria| + |r.partialMatchCriteria| == |scheme.eligibilityCriteria|
  {
    FilterThreeWay(scheme.eligibilityCriteria, HoldsFor(profile, member), FailsFor(profile, member),
                   Mandatory(), Optional(), MissingFor(profile, member), PartialFor(profile, member));
  }

  /** Matched criteria hold; missing ones failed and are mandatory; partial ones failed and are optional. */
  lemma ListsClassified(scheme: Scheme, profile: UserProfile, member: Option<FamilyMember>)
    ensures var r := Evaluate(scheme, profile, member);
      forall c :: c in r.matchedCriteria ==> c in scheme.eligibilityCriteria && CriterionHolds(c, profile, member)
    ensures var r := Evaluate(scheme, profile, member);
      forall c :: c in r.missingCriteria ==>
        c in scheme.eligibilityCriteria && !CriterionHolds(c, profile, member) && c.isMandatory
    ensures var r := Evaluate(scheme, profile, member);
      forall c :: c in r.partialMatchCriteria ==>
        c in scheme.eligibilityCriteria && !CriterionHolds(c, profile, member) && !c.isMandatory
  {
    var cs := scheme.eligibilityCriteria;
    var ms := Filter(cs, HoldsFor(profile, member));
    var ps := Filter(cs, MissingFor(profile, member));
    var qs := Filter(cs, PartialFor(profile, member));
    forall c | c in ms ensures c in cs && CriterionHolds(c, profile, member) {
      var k :| 0 <= k < |ms| && ms[k] == c;
      assert HoldsFor(profile, member)(ms[k]);
    }
    forall c | c in ps ensures c in cs && !CriterionHolds(c, profile, member) && c.isMandatory {
      var k :| 0 <= k < |ps| && ps[k] == c;
      assert MissingFor(profile, member)(ps[k]);
    }
    forall c | c in qs ensures c in cs && !CriterionHolds(c, profile, member) && !c.isMandatory {
      var k :| 0 <= k < |qs| && qs[k] == c;
      assert PartialFor(profile, member)(qs[k]);
    }
  }

  /** The mandatory criteria are the matched mandatory ones plus the missing ones. */
  lemma MandatoryCount(cs: seq<Criterion>, profile: UserProfile, member: Option<FamilyMember>)
    ensures |Filter(cs, Mandatory())|
      == |Filter(Filter(cs, HoldsFor(profile, member)), Mandatory())| + |Filter(cs, MissingFor(profile, member))|
  {
    var mand := Filter(cs, Mandatory());
    FilterSplit(mand, HoldsFor(profile, member), FailsFor(profile, member));
    FilterFilter(cs, Mandatory(), HoldsFor(profile, member), MatchedMandatoryFor(profile, member));
    FilterFilter(cs, HoldsFor(profile, member), Mandatory(), MatchedMandatoryFor(profile, member));
    FilterFilter(cs, Mandatory(), FailsFor(profile, member), MissingFor(profile, member));
  }

  /** The matched optional criteria number at most the optional ones. */
  lemma OptionalCount(cs: seq<Criterion>, profile: UserProfile, member: Option<FamilyMember>)
    ensures var matched := Filter(cs, HoldsFor(profile, member));
      && |Filter(matched, Mandatory())| <= |matched|
      && |matched| - |Filter(matched, Mandatory())| <= |cs| - |Filter(cs, Mandatory())|
  {
    var matched := Filter(cs, HoldsFor(profile, member));
    FilterSplit(matched, Mandatory(), Optional());
    FilterSplit(cs, Mandatory(), Optional());
    FilterFilter(cs, HoldsFor(profile, member), Optional(), MatchedOptionalFor(profile, member));
    FilterMonotone(cs, MatchedOptionalFor(profile, member), Optional());
  }

  /**
   * Full eligibility means no missing criterion, which is the same as a positive score;
   * the score is then between 70 and 100, and 0 otherwise.
   */
  lemma EligibilityAndScore(scheme: Scheme, profile: UserProfile, member: Option<FamilyMember>)
    ensures var r := Evaluate(scheme, profile, member);
      && (r.isFullyEligible <==> r.missingCriteria == [])
      && (r.isFullyEligible <==> r.eligibilityScore > 0.0)
      && (r.isFullyEligible ==> 70.0 <= r.eligibilityScore <= 100.0)
      && (!r.isFullyEligible ==> r.eligibilityScore == 0.0)
  {
    var cs := scheme.eligibilityCriteria;
    var matched := Filter(cs, HoldsFor(profile, member));
    MandatoryCount(cs, profile, member);
    OptionalCount(cs, profile, member);
    ScoreRange(|cs|, |Filter(cs, Mandatory())|, |Filter(matched, Mandatory())|, |matched|);
  }

  /** Full eligibility holds exactly when every mandatory criterion holds. */
  lemma FullyEligibleIff(scheme: Scheme, profile: UserProfile, member: Option<FamilyMember>)
    ensures Evaluate(scheme, profile, member).isFullyEligible <==>
      forall k :: 0 <= k < |scheme.eligibilityCriteria| && scheme.eligibilityCriteria[k].isMandatory ==>
        CriterionHolds(scheme.eligibilityCriteria[k], profile, member)
  {
    var cs := scheme.eligibilityCriteria;
    var missing := Filter(cs, MissingFor(profile, member));
    if missing != [] {
      assert MissingFor(profile, member)(missing[0]);
      var k :| 0 <= k < |cs| && cs[k] == missing[0];
    }
  }

  /** High exactly for fully eligible matches scoring 80 or more; low exactly for the ineligible. */
  lemma PriorityFacts(scheme: Scheme, profile: UserProfile, member: Option<FamilyMember>)
    ensures var r := Evaluate(scheme, profile, member);
      && (r.priority == High <==> r.isFullyEligible && r.eligibilityScore >= 80.0)
      && (r.priority == Low <==> !r.isFullyEligible)
      && (r.priority == Medium <==> r.isFullyEligible && r.eligibilityScore < 80.0)
  {
    EligibilityAndScore(scheme, profile, member);
  }

  /** A scheme without criteria scores 100 for everyone, with high priority. */
  lemma NoCriteriaFullScore(scheme: Scheme, profile: UserProfile, member: Option<FamilyMember>)
    requires scheme.eligibilityCriteria == []
    ensures Evaluate(scheme, profile, member).eligibilityScore == 100.0
    ensures Evaluate(scheme, profile, member).priority == High
  {
  }

  /** When every criterion holds the score is 100. */
  lemma AllHoldFullScore(scheme: Scheme, profile: UserProfile, member: Option<FamilyMember>)
    requires forall k :: 0 <= k < |scheme.eligibilityCriteria| ==> CriterionHolds(scheme.eligibilityCriteria[k], profile, member)
    ensures Evaluate(scheme, profile, member).eligibilityScore == 100.0
    ensures Evaluate(scheme, profile, member).priority == High
  {
    var cs := scheme.eligibilityCriteria;
    FilterAll(cs, HoldsFor(profile, member));
    FilterSplit(cs, Mandatory(), Optional());
    MandatoryCount(cs, profile, member);
    FilterNone(cs, MissingFor(profile, member));
    ScoreRange(|cs|, |Filter(cs, Mandatory())|, |Filter(cs, Mandatory())|, |cs|);
  }

  /** A member result names that member; a profile result names nobody. */
  lemma ApplicabilityFacts(scheme: Scheme, profile: UserProfile, member: Option<FamilyMember>)
    ensures var r := Evaluate(scheme, profile, member);
      && (member.Some? ==>
            r.applicableTo == SpecificMember && r.specificMemberId == Some(member.value.id)
            && r.applicableMembers == [member.value])
      && (member.None? ==>
            r.applicableTo == Individual && r.specificMemberId.None? && r.applicableMembers == [])
      && r.scheme == scheme
  {
  }
}
