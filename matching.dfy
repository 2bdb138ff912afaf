/**
 * Finding the matching schemes for a profile: every active scheme open for application
 * is scored for the profile itself and for each household member other than the
 * applicant, positive results are kept (at most one per scheme id and member id), and
 * the results are ranked.
 */
module Matching {
  import opened Wrappers
  import opened Enums
  import opened Seqs
  import opened ProfileTypes
  import opened SchemeTypes
  import opened Scoring
  import opened Ranking

  /** Some result is for the scheme id `id` and the member with id `memberId`. */
  predicate HasPair(results: seq<MatchResult>, id: string, memberId: string) {
    exists k :: 0 <= k < |results| && results[k].scheme.id == id && results[k].specificMemberId == Some(memberId)
  }

  /** The key the de-duplication compares: scheme id and member id. */
  function PairOf(): MatchResult -> (string, Option<string>) {
    (r: MatchResult) => (r.scheme.id, r.specificMemberId)
  }

  function IsMemberResult(): MatchResult -> bool {
    (r: MatchResult) => r.specificMemberId.Some?
  }

  /** No two member results share a scheme id and a member id. */
  predicate UniqueMemberPairs(results: seq<MatchResult>) {
    UniqueKeys(results, PairOf(), IsMemberResult())
  }

  /** Open in the sense of the matcher: active and accepting applications. */
  predicate Considered(scheme: Scheme) {
    scheme.isActive && scheme.isOpenForApplication
  }

  // ---------------------------------------------------------------------------
  // The collection, stated step by step

  /** The member step: skip the applicant, keep a positive result unless its pair is already there. */
  function AddMember(results: seq<MatchResult>, scheme: Scheme, profile: UserProfile, member: FamilyMember)
    : seq<MatchResult>
  {
    if member.relationship == RelationshipType.Self then results
    else
      var r := Evaluate(scheme, profile, Some(member));
      if r.eligibilityScore > 0.0 && !HasPair(results, scheme.id, member.id) then results + [r] else results
  }

  function AddMembers(results: seq<MatchResult>, scheme: Scheme, profile: UserProfile, members: seq<FamilyMember>)
    : seq<MatchResult>
  {
    if members == [] then results
    else AddMember(AddMembers(results, scheme, profile, members[..|members| - 1]), scheme, profile, members[|members| - 1])
  }

  /** The scheme step: the profile's own result if positive, then the members' results. */
  function AddScheme(results: seq<MatchResult>, scheme: Scheme, profile: UserProfile): seq<MatchResult> {
    if !Considered(scheme) then results
    else
      var primary := Evaluate(scheme, profile, None);
      var withPrimary := if primary.eligibilityScore > 0.0 then results + [primary] else results;
      AddMembers(withPrimary, scheme, profile, profile.familyMembers)
  }

  /** The results before ranking, in the order they are found. */
  function Collect(profile: UserProfile, schemes: seq<Scheme>): seq<MatchResult> {
    if schemes == [] then []
    else AddScheme(Collect(profile, schemes[..|schemes| - 1]), schemes[|schemes| - 1], profile)
  }

  /** The matches for `profile` among `schemes`. */
  function Matches(profile: UserProfile, schemes: seq<Scheme>): seq<MatchResult> {
    RankMatches(Collect(profile, schemes))
  }

  // ---------------------------------------------------------------------------
  // The matcher

  lemma AddMembersStep(results: seq<MatchResult>, scheme: Scheme, profile: UserProfile, members: seq<FamilyMember>,
                       j: nat)
    requires j < |members|
    ensures AddMembers(results, scheme, profile, members[..j + 1])
      == AddMember(AddMembers(results, scheme, profile, members[..j]), scheme, profile, members[j])
  {
    assert members[..j + 1][..j] == members[..j];
  }

  lemma CollectStep(profile: UserProfile, schemes: seq<Scheme>, i: nat)
    requires i < |schemes|
    ensures Collect(profile, schemes[..i + 1]) == AddScheme(Collect(profile, schemes[..i]), schemes[i], profile)
  {
    assert schemes[..i + 1][..i] == schemes[..i];
  }

  /** The first result for the pair, or -1. */
  method FindPairIndex(results: seq<MatchResult>, id: string, memberId: string) returns (index: int)
    ensures index == -1 <==> !HasPair(results, id, memberId)
    ensures 0 <= index ==> index < |results| && results[index].scheme.id == id
                           && results[index].specificMemberId == Some(memberId)
    ensures 0 <= index ==> forall k :: 0 <= k < index ==>
              !(results[k].scheme.id == id && results[k].specificMemberId == Some(memberId))
  {
    for i := 0 to |results|
      invariant forall k :: 0 <= k < i ==> !(results[k].scheme.id == id && results[k].specificMemberId == Some(memberId))
    {
      if results[i].scheme.id == id && results[i].specificMemberId == Some(memberId) {
        return i;
      }
    }
    return -1;
  }

  method MatchMembers(results: seq<MatchResult>, scheme: Scheme, profile: UserProfile) returns (out: seq<MatchResult>)
    ensures out == AddMembers(results, scheme, profile, profile.familyMembers)
  {
    var members := profile.familyMembers;
    out := results;
    for j := 0 to |members|
      invariant out == AddMembers(results, scheme, profile, members[..j])
    {
      var member := members[j];
      AddMembersStep(results, scheme, profile, members, j);
      if member.relationship == RelationshipType.Self {
        continue;
      }
      var memberResult := EvaluateScheme(scheme, profile, Some(member));
      if memberResult.eligibilityScore > 0.0 {
        var existingIndex := FindPairIndex(out, scheme.id, member.id);
        if existingIndex == -1 {
          out := out + [memberResult];
        }
      }
    }
    assert members[..|members|] == members;
  }

  /** The matcher: one pass over the schemes, then the ranking. */
  method FindMatches(profile: UserProfile, schemes: seq<Scheme>) returns (ranked: seq<MatchResult>)
    ensures ranked == Matches(profile, schemes)
  {
    var results: seq<MatchResult> := [];
    for i := 0 to |schemes|
      invariant results == Collect(profile, schemes[..i])
    {
      var scheme := schemes[i];
      CollectStep(profile, schemes, i);
      if !scheme.isActive || !scheme.isOpenForApplication {
        continue;
      }
      var primaryResult := EvaluateScheme(scheme, profile, None);
      if primaryResult.eligibilityScore > 0.0 {
        results := results + [primaryResult];
      }
      results := MatchMembers(results, scheme, profile);
    }
    assert schemes[..|schemes|] == schemes;
    ranked := RankMatches(results);
  }

  // ---------------------------------------------------------------------------
  // Properties

  /** A result the matcher may produce: a positive score for a considered scheme, for the profile or a non-applicant member. */
  predicate Admissible(r: MatchResult, profile: UserProfile, schemes: seq<Scheme>) {
    && r.scheme in schemes
    && Considered(r.scheme)
    && r.eligibilityScore > 0.0
    && (r == Evaluate(r.scheme, profile, None)
        || exists m :: m in profile.familyMembers && m.relationship != RelationshipType.Self
                       && r == Evaluate(r.scheme, profile, Some(m)))
  }

  predicate AllAdmissible(results: seq<MatchResult>, profile: UserProfile, schemes: seq<Scheme>) {
    forall k :: 0 <= k < |results| ==> Admissible(results[k], profile, schemes)
  }

  lemma {:induction false} AddMembersAdmissible(results: seq<MatchResult>, scheme: Scheme, profile: UserProfile,
                                                members: seq<FamilyMember>, schemes: seq<Scheme>)
    requires scheme in schemes && Considered(scheme)
    requires forall m :: m in members ==> m in profile.familyMembers
    requires AllAdmissible(results, profile, schemes)
    ensures AllAdmissible(AddMembers(results, scheme, profile, members), profile, schemes)
  {
    if members != [] {
      var init, m := members[..|members| - 1], members[|members| - 1];
      assert forall x :: x in init ==> x in members;
      AddMembersAdmissible(results, scheme, profile, init, schemes);
      AddMemberAdmissible(AddMembers(results, scheme, profile, init), scheme, profile, m, schemes);
    }
  }

  lemma AddMemberAdmissible(results: seq<MatchResult>, scheme: Scheme, profile: UserProfile,
                            m: FamilyMember, schemes: seq<Scheme>)
    requires scheme in schemes && Considered(scheme) && m in profile.familyMembers
    requires AllAdmissible(results, profile, schemes)
    ensures AllAdmissible(AddMember(results, scheme, profile, m), profile, schemes)
  {
    if m.relationship != RelationshipType.Self {
      var r := Evaluate(scheme, profile, Some(m));
      ApplicabilityFacts(scheme, profile, Some(m));
      if r.eligibilityScore > 0.0 && !HasPair(results, scheme.id, m.id) {
        assert Admissible(r, profile, schemes);
      }
    }
  }

  lemma AdmissibleWider(results: seq<MatchResult>, profile: UserProfile, schemes: seq<Scheme>, wider: seq<Scheme>)
    requires forall s :: s in schemes ==> s in wider
    requires AllAdmissible(results, profile, schemes)
    ensures AllAdmissible(results, profile, wider)
  {
  }

  lemma {:induction false} CollectAdmissible(profile: UserProfile, schemes: seq<Scheme>)
    ensures AllAdmissible(Collect(profile, schemes), profile, schemes)
  {
    if schemes != [] {
      var init, s := schemes[..|schemes| - 1], schemes[|schemes| - 1];
      CollectAdmissible(profile, init);
      var before := Collect(profile, init);
      AdmissibleWider(before, profile, init, schemes);
      if Considered(s) {
        var primary := Evaluate(s, profile, None);
        var withPrimary := if primary.eligibilityScore > 0.0 then before + [primary] else before;
        assert AllAdmissible(withPrimary, profile, schemes);
        AddMembersAdmissible(withPrimary, s, profile, profile.familyMembers, schemes);
      }
    }
  }

  /**
   * Every match is a positive result for an active scheme that is open for application,
   * scored for the profile itself or for a household member other than the applicant.
   */
  lemma MatchesSound(profile: UserProfile, schemes: seq<Scheme>)
    ensures AllAdmissible(Matches(profile, schemes), profile, schemes)
  {
    var c := Collect(profile, schemes);
    CollectAdmissible(profile, schemes);
    RankMatchesPermutes(c);
    forall k | 0 <= k < |RankMatches(c)| ensures Admissible(RankMatches(c)[k], profile, schemes) {
      var a := PositionOf(c, RankMatches(c)[k]);
    }
  }

  /** Every match is fully eligible and scores between 70 and 100, so none has low priority. */
  lemma MatchesEligible(profile: UserProfile, schemes: seq<Scheme>)
    ensures forall r :: r in Matches(profile, schemes) ==>
      r.isFullyEligible && 70.0 <= r.eligibilityScore <= 100.0 && r.priority != Low
  {
    MatchesSound(profile, schemes);
    var ms := Matches(profile, schemes);
    forall r | r in ms ensures r.isFullyEligible && 70.0 <= r.eligibilityScore <= 100.0 && r.priority != Low {
      var k :| 0 <= k < |ms| && ms[k] == r;
      assert Admissible(r, profile, schemes);
      if r == Evaluate(r.scheme, profile, None) {
        EligibilityAndScore(r.scheme, profile, None);
        PriorityFacts(r.scheme, profile, None);
      } else {
        var m :| m in profile.familyMembers && m.relationship != RelationshipType.Self
                 && r == Evaluate(r.scheme, profile, Some(m));
        EligibilityAndScore(r.scheme, profile, Some(m));
        PriorityFacts(r.scheme, profile, Some(m));
      }
    }
  }

  /** A scheme that is inactive or closed never appears among the matches. */
  lemma ClosedSchemesExcluded(profile: UserProfile, schemes: seq<Scheme>, s: Scheme)
    requires !Considered(s)
    ensures forall r :: r in Matches(profile, schemes) ==> r.scheme != s
  {
    MatchesSound(profile, schemes);
  }

  // De-duplication

  lemma {:induction false} AddMembersUnique(results: seq<MatchResult>, scheme: Scheme, profile: UserProfile,
                                            members: seq<FamilyMember>)
    requires UniqueMemberPairs(results)
    ensures UniqueMemberPairs(AddMembers(results, scheme, profile, members))
  {
    if members != [] {
      var init, m := members[..|members| - 1], members[|members| - 1];
      AddMembersUnique(results, scheme, profile, init);
      var before := AddMembers(results, scheme, profile, init);
      if m.relationship != RelationshipType.Self {
        var r := Evaluate(scheme, profile, Some(m));
        if r.eligibilityScore > 0.0 && !HasPair(before, scheme.id, m.id) {
          SnocFreshKey(before, r);
        }
      }
    }
  }

  /** Appending a result whose pair is new keeps the pairs unique. */
  lemma SnocFreshKey(results: seq<MatchResult>, r: MatchResult)
    requires UniqueMemberPairs(results)
    requires r.specificMemberId.Some? ==> !HasPair(results, r.scheme.id, r.specificMemberId.value)
    ensures UniqueMemberPairs(results + [r])
  {
    var xs := results + [r];
    forall i, j | 0 <= i < |xs| && 0 <= j < |xs| && i != j && IsMemberResult()(xs[i])
      ensures PairOf()(xs[i]) != PairOf()(xs[j])
    {
      if i == |results| {
        assert xs[j] == results[j];
      } else if j == |results| {
        assert xs[i] == results[i];
      } else {
        assert xs[i] == results[i] && xs[j] == results[j];
      }
    }
  }

  lemma {:induction false} CollectUnique(profile: UserProfile, schemes: seq<Scheme>)
    ensures UniqueMemberPairs(Collect(profile, schemes))
  {
    if schemes != [] {
      var init, s := schemes[..|schemes| - 1], schemes[|schemes| - 1];
      CollectUnique(profile, init);
      var before := Collect(profile, init);
      if Considered(s) {
        var primary := Evaluate(s, profile, None);
        if primary.eligibilityScore > 0.0 {
          SnocFreshKey(before, primary);
        }
        var withPrimary := if primary.eligibilityScore > 0.0 then before + [primary] else before;
        AddMembersUnique(withPrimary, s, profile, profile.familyMembers);
      }
    }
  }

  /** No two matches share a scheme id and a household member id. */
  lemma MatchesUnique(profile: UserProfile, schemes: seq<Scheme>)
    ensures UniqueMemberPairs(Matches(profile, schemes))
  {
    CollectUnique(profile, schemes);
    RankMatchesPermutes(Collect(profile, schemes));
    UniqueKeysPermutation(Collect(profile, schemes), Matches(profile, schemes), PairOf(), IsMemberResult());
  }

  // Completeness

  /** A household member other than the applicant whose own result for `scheme` is positive. */
  predicate PositiveMember(scheme: Scheme, profile: UserProfile, m: FamilyMember) {
    m in profile.familyMembers && m.relationship != RelationshipType.Self
    && Evaluate(scheme, profile, Some(m)).eligibilityScore > 0.0
  }

  lemma {:induction false} AddMembersExtends(results: seq<MatchResult>, scheme: Scheme, profile: UserProfile,
                                             members: seq<FamilyMember>)
    ensures results <= AddMembers(results, scheme, profile, members)
  {
    if members != [] {
      AddMembersExtends(results, scheme, profile, members[..|members| - 1]);
    }
  }

  lemma AddSchemeExtends(results: seq<MatchResult>, scheme: Scheme, profile: UserProfile)
    ensures results <= AddScheme(results, scheme, profile)
  {
    if Considered(scheme) {
      var primary := Evaluate(scheme, profile, None);
      var withPrimary := if primary.eligibilityScore > 0.0 then results + [primary] else results;
      AddMembersExtends(withPrimary, scheme, profile, profile.familyMembers);
    }
  }

  lemma {:induction false} CollectExtends(profile: UserProfile, schemes: seq<Scheme>, k: nat)
    requires k <= |schemes|
    ensures Collect(profile, schemes[..k]) <= Collect(profile, schemes)
    decreases |schemes| - k
  {
    if k < |schemes| {
      var init := schemes[..|schemes| - 1];
      assert init[..k] == schemes[..k];
      CollectExtends(profile, init, k);
      AddSchemeExtends(Collect(profile, init), schemes[|schemes| - 1], profile);
    } else {
      assert schemes[..k] == schemes;
    }
  }

  lemma HasPairExtends(a: seq<MatchResult>, b: seq<MatchResult>, id: string, memberId: string)
    requires a <= b && HasPair(a, id, memberId)
    ensures HasPair(b, id, memberId)
  {
    var k :| 0 <= k < |a| && a[k].scheme.id == id && a[k].specificMemberId == Some(memberId);
    assert b[k] == a[k];
  }

  /** After the member step, every non-applicant member with a positive result has its pair present. */
  lemma {:induction false} AddMembersCovers(results: seq<MatchResult>, scheme: Scheme, profile: UserProfile,
                                            members: seq<FamilyMember>, m: FamilyMember)
    requires m in members && m.relationship != RelationshipType.Self
    requires Evaluate(scheme, profile, Some(m)).eligibilityScore > 0.0
    ensures HasPair(AddMembers(results, scheme, profile, members), scheme.id, m.id)
  {
    var init, last := members[..|members| - 1], members[|members| - 1];
    var before := AddMembers(results, scheme, profile, init);
    var after := AddMembers(results, scheme, profile, members);
    if last == m {
      if !HasPair(before, scheme.id, m.id) {
        var r := Evaluate(scheme, profile, Some(m));
        assert after[|before|] == r;
      }
    } else {
      assert m in init;
      AddMembersCovers(results, scheme, profile, init, m);
      AddMembersExtends(before, scheme, profile, [last]);
      assert AddMembers(before, scheme, profile, [last]) == after by {
        assert [last][..0] == [];
      }
      HasPairExtends(before, after, scheme.id, m.id);
    }
  }

  /** The scheme step covers the profile's own positive result and every positive member pair. */
  lemma AddSchemeCovers(results: seq<MatchResult>, scheme: Scheme, profile: UserProfile)
    requires Considered(scheme)
    ensures Evaluate(scheme, profile, None).eligibilityScore > 0.0 ==>
      Evaluate(scheme, profile, None) in AddScheme(results, scheme, profile)
    ensures forall m :: PositiveMember(scheme, profile, m) ==>
      HasPair(AddScheme(results, scheme, profile), scheme.id, m.id)
  {
    var primary := Evaluate(scheme, profile, None);
    var withPrimary := if primary.eligibilityScore > 0.0 then results + [primary] else results;
    AddMembersExtends(withPrimary, scheme, profile, profile.familyMembers);
    if primary.eligibilityScore > 0.0 {
      assert AddScheme(results, scheme, profile)[|results|] == primary;
    }
    forall m | PositiveMember(scheme, profile, m)
      ensures HasPair(AddScheme(results, scheme, profile), scheme.id, m.id)
    {
      AddMembersCovers(withPrimary, scheme, profile, profile.familyMembers, m);
    }
  }

  /**
   * Completeness: for every active scheme open for application, a positive result for
   * the profile is among the matches, and so is a result for every household member
   * other than the applicant whose own result is positive.
   */
  lemma MatchesComplete(profile: UserProfile, schemes: seq<Scheme>, k: nat)
    requires k < |schemes| && Considered(schemes[k])
    ensures Evaluate(schemes[k], profile, None).eligibilityScore > 0.0 ==>
      Evaluate(schemes[k], profile, None) in Matches(profile, schemes)
    ensures forall m :: PositiveMember(schemes[k], profile, m) ==>
      HasPair(Matches(profile, schemes), schemes[k].id, m.id)
  {
    var s := schemes[k];
    var prefix := schemes[..k + 1];
    assert prefix[..k] == schemes[..k];
    var step := Collect(profile, prefix);
    var all := Collect(profile, schemes);
    AddSchemeCovers(Collect(profile, schemes[..k]), s, profile);
    CollectExtends(profile, schemes, k + 1);
    RankMatchesPermutes(all);
    var primary := Evaluate(s, profile, None);
    if primary.eligibilityScore > 0.0 {
      var a := PositionOf(step, primary);
      assert all[a] == primary;
      assert primary in multiset(all);
    }
    forall m | PositiveMember(s, profile, m)
      ensures HasPair(Matches(profile, schemes), s.id, m.id)
    {
      HasPairExtends(step, all, s.id, m.id);
      var j :| 0 <= j < |all| && all[j].scheme.id == s.id && all[j].specificMemberId == Some(m.id);
      var p := PositionOf(Matches(profile, schemes), all[j]);
    }
  }
}
