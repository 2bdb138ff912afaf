/**
 * Organising match results: the groups by benefit type (each ranked, groups ordered by
 * size) and the summary with counts and, per household member, the top three schemes.
 */
module Summaries {
  import opened Wrappers
  import opened Enums
  import opened Seqs
  import opened Groups
  import opened ProfileTypes
  import SchemeTypes
  import opened Scoring
  import opened Ranking
  import Matching

  datatype CategoryGroup = CategoryGroup(
    category: BenefitType,
    categoryName: string,
    results: seq<MatchResult>,
    totalCount: nat)

  datatype MemberSummary = MemberSummary(
    member: FamilyMember,
    matchCount: nat,
    topSchemes: seq<MatchResult>)

  /** The summary; its timestamp is left out. */
  datatype MatchingSummary = MatchingSummary(
    totalSchemesAnalyzed: nat,
    totalMatches: nat,
    fullyEligibleCount: nat,
    partiallyEligibleCount: nat,
    categorizedResults: seq<CategoryGroup>,
    familyMemberMatches: seq<MemberSummary>)

  // ---------------------------------------------------------------------------
  // Grouping by benefit type

  function TypeOf(): MatchResult -> BenefitType {
    (r: MatchResult) => r.scheme.benefitType
  }

  function Everything(): MatchResult -> bool {
    (r: MatchResult) => true
  }

  /** The matches whose scheme has benefit type `c`. */
  function OfType(matches: seq<MatchResult>, c: BenefitType): seq<MatchResult> {
    Filter(matches, WithKey(TypeOf(), Everything(), c))
  }

  /** The benefit types of the matches, in first-seen order. */
  function Categories(matches: seq<MatchResult>): seq<BenefitType> {
    Keys(matches, TypeOf(), Everything())
  }

  function MakeGroup(c: BenefitType, matches: seq<MatchResult>): CategoryGroup {
    var g := OfType(matches, c);
    CategoryGroup(c, c.Name(), RankMatches(g), |g|)
  }

  function MakeGroups(cs: seq<BenefitType>, matches: seq<MatchResult>): (gs: seq<CategoryGroup>)
    ensures |gs| == |cs|
  {
    if cs == [] then [] else MakeGroups(cs[..|cs| - 1], matches) + [MakeGroup(cs[|cs| - 1], matches)]
  }

  /** Insert `g` in front of the first group with fewer results: a stable sort by count, descending. */
  function InsertGroup(gs: seq<CategoryGroup>, g: CategoryGroup): (r: seq<CategoryGroup>)
    ensures |r| == |gs| + 1
  {
    if gs == [] then [g]
    else if g.totalCount > gs[0].totalCount then [g] + gs
    else [gs[0]] + InsertGroup(gs[1..], g)
  }

  function SortGroups(gs: seq<CategoryGroup>): (r: seq<CategoryGroup>)
    ensures |r| == |gs|
  {
    if gs == [] then [] else InsertGroup(SortGroups(gs[..|gs| - 1]), gs[|gs| - 1])
  }

  /** The categorised results. */
  function Categorize(matches: seq<MatchResult>): seq<CategoryGroup> {
    SortGroups(MakeGroups(Categories(matches), matches))
  }

  /** The grouping loop, the loop building one record per benefit type, and the sort. */
  method CategorizeMatches(matches: seq<MatchResult>) returns (sorted: seq<CategoryGroup>)
    ensures sorted == Categorize(matches)
  {
    var order, categoryMap := GroupBy(matches, TypeOf(), Everything());
    var results: seq<CategoryGroup> := [];
    for i := 0 to |order|
      invariant results == MakeGroups(order[..i], matches)
    {
      var category := order[i];
      assert order[..i + 1][..i] == order[..i];
      assert category in order;
      var categoryMatches := categoryMap[category];
      results := results + [CategoryGroup(category, category.Name(), RankMatches(categoryMatches), |categoryMatches|)];
    }
    assert order[..|order|] == order;
    sorted := SortGroups(results);
  }

  // ---------------------------------------------------------------------------
  // Properties of the grouping

  function TotalCount(gs: seq<CategoryGroup>): nat {
    if gs == [] then 0 else TotalCount(gs[..|gs| - 1]) + gs[|gs| - 1].totalCount
  }

  lemma {:induction false} TotalCountCons(g: CategoryGroup, gs: seq<CategoryGroup>)
    ensures TotalCount([g] + gs) == g.totalCount + TotalCount(gs)
  {
    if gs != [] {
      assert ([g] + gs)[..|gs|] == [g] + gs[..|gs| - 1];
      TotalCountCons(g, gs[..|gs| - 1]);
    }
  }

  lemma {:induction false} InsertGroupFacts(gs: seq<CategoryGroup>, g: CategoryGroup)
    ensures multiset(InsertGroup(gs, g)) == multiset(gs) + multiset{g}
    ensures TotalCount(InsertGroup(gs, g)) == TotalCount(gs) + g.totalCount
  {
    if gs == [] {
      assert [g][..0] == [];
    } else if g.totalCount > gs[0].totalCount {
      TotalCountCons(g, gs);
    } else {
      InsertGroupFacts(gs[1..], g);
      TotalCountCons(gs[0], InsertGroup(gs[1..], g));
      TotalCountCons(gs[0], gs[1..]);
      assert gs == [gs[0]] + gs[1..];
    }
  }

  lemma {:induction false} SortGroupsFacts(gs: seq<CategoryGroup>)
    ensures multiset(SortGroups(gs)) == multiset(gs)
    ensures TotalCount(SortGroups(gs)) == TotalCount(gs)
  {
    if gs != [] {
      var init, last := gs[..|gs| - 1], gs[|gs| - 1];
      SortGroupsFacts(init);
      InsertGroupFacts(SortGroups(init), last);
      assert gs == init + [last];
    }
  }

  predicate Descending(gs: seq<CategoryGroup>) {
    forall i, j :: 0 <= i < j < |gs| ==> gs[i].totalCount >= gs[j].totalCount
  }

  lemma {:induction false} InsertGroupDescending(gs: seq<CategoryGroup>, g: CategoryGroup)
    requires Descending(gs)
    ensures Descending(InsertGroup(gs, g))
  {
    if gs != [] && g.totalCount <= gs[0].totalCount {
      assert Descending(gs[1..]) by {
        forall i, j | 0 <= i < j < |gs[1..]| ensures gs[1..][i].totalCount >= gs[1..][j].totalCount {
          assert gs[1..][i] == gs[i + 1] && gs[1..][j] == gs[j + 1];
        }
      }
      InsertGroupDescending(gs[1..], g);
      InsertGroupFacts(gs[1..], g);
      var tail := InsertGroup(gs[1..], g);
      forall j | 0 <= j < |tail| ensures gs[0].totalCount >= tail[j].totalCount {
        assert tail[j] in multiset(gs[1..]) + multiset{g};
        if tail[j] != g {
          var k := PositionOf(gs[1..], tail[j]);
          assert gs[k + 1] == tail[j];
        }
      }
    }
  }

  /** The groups come in order of size, largest first. */
  lemma {:induction false} SortGroupsDescending(gs: seq<CategoryGroup>)
    ensures Descending(SortGroups(gs))
  {
    if gs != [] {
      SortGroupsDescending(gs[..|gs| - 1]);
      InsertGroupDescending(SortGroups(gs[..|gs| - 1]), gs[|gs| - 1]);
    }
  }

  lemma {:induction false} MakeGroupsTotal(cs: seq<BenefitType>, matches: seq<MatchResult>)
    ensures TotalCount(MakeGroups(cs, matches)) == SumCounts(cs, matches, TypeOf(), Everything())
  {
    if cs != [] {
      MakeGroupsTotal(cs[..|cs| - 1], matches);
      assert MakeGroups(cs, matches)[..|cs| - 1] == MakeGroups(cs[..|cs| - 1], matches);
    }
  }

  lemma MakeGroupsMember(cs: seq<BenefitType>, matches: seq<MatchResult>, g: CategoryGroup)
    requires g in MakeGroups(cs, matches)
    ensures g.category in cs && g == MakeGroup(g.category, matches)
  {
    if cs != [] && g != MakeGroup(cs[|cs| - 1], matches) {
      assert g in MakeGroups(cs[..|cs| - 1], matches);
      MakeGroupsMember(cs[..|cs| - 1], matches, g);
    }
  }

  /** The group counts add up to the number of matches. */
  lemma CategorizeTotal(matches: seq<MatchResult>)
    ensures TotalCount(Categorize(matches)) == |matches|
  {
    var cs := Categories(matches);
    SortGroupsFacts(MakeGroups(cs, matches));
    MakeGroupsTotal(cs, matches);
    KeysCover(matches, TypeOf(), Everything());
    FilterAll(matches, Everything());
  }

  /** The groups are ordered by their count, largest first. */
  lemma CategorizeDescending(matches: seq<MatchResult>)
    ensures Descending(Categorize(matches))
  {
    SortGroupsDescending(MakeGroups(Categories(matches), matches));
  }

  /**
   * Each group is one benefit type present among the matches: it holds exactly the
   * matches of that type, ranked, its count is its size, and its name is the type's name.
   */
  lemma CategorizeGroup(matches: seq<MatchResult>, g: CategoryGroup)
    requires g in Categorize(matches)
    ensures g.category in Categories(matches)
    ensures multiset(g.results) == multiset(OfType(matches, g.category))
    ensures g.results == RankMatches(OfType(matches, g.category)) && Ranked(g.results)
    ensures g.totalCount == |g.results| > 0
    ensures g.categoryName == g.category.Name()
    ensures forall r :: r in g.results ==> r.scheme.benefitType == g.category
  {
    var cs := Categories(matches);
    SortGroupsFacts(MakeGroups(cs, matches));
    assert g in multiset(MakeGroups(cs, matches));
    MakeGroupsMember(cs, matches, g);
    var members := OfType(matches, g.category);
    RankMatchesPermutes(members);
    RankMatchesRanked(members);
    KeysFacts(matches, TypeOf(), Everything());
    var i :| 0 <= i < |matches| && Everything()(matches[i]) && TypeOf()(matches[i]) == g.category;
    assert WithKey(TypeOf(), Everything(), g.category)(matches[i]);
    forall r | r in g.results ensures r.scheme.benefitType == g.category {
      assert r in multiset(members);
      var k := PositionOf(members, r);
      assert WithKey(TypeOf(), Everything(), g.category)(members[k]);
    }
  }

  /** Every match's benefit type has a group, and no benefit type has two. */
  lemma CategorizeCovers(matches: seq<MatchResult>)
    ensures forall k :: 0 <= k < |matches| ==> matches[k].scheme.benefitType in Categories(matches)
    ensures Distinct(Categories(matches))
  {
    KeysFacts(matches, TypeOf(), Everything());
    forall k | 0 <= k < |matches| ensures matches[k].scheme.benefitType in Categories(matches) {
      assert Everything()(matches[k]) && TypeOf()(matches[k]) == matches[k].scheme.benefitType;
    }
  }

  /** The groups of exactly `n` results. */
  function CountIs(n: nat): CategoryGroup -> bool {
    (g: CategoryGroup) => g.totalCount == n
  }

  lemma {:induction false} InsertGroupStable(gs: seq<CategoryGroup>, g: CategoryGroup, n: nat)
    requires Descending(gs)
    ensures Filter(InsertGroup(gs, g), CountIs(n)) == Filter(gs, CountIs(n)) + (if CountIs(n)(g) then [g] else [])
    decreases |gs|
  {
    var p := CountIs(n);
    if gs == [] {
      FilterCons(g, [], p);
    } else if g.totalCount > gs[0].totalCount {
      InsertGroupFrontStable(gs, g, n);
    } else {
      DescendingTail(gs);
      InsertGroupStable(gs[1..], g, n);
      FilterConsSnoc(gs[0], gs[1..], InsertGroup(gs[1..], g), g, p);
      assert gs == [gs[0]] + gs[1..];
    }
  }

  lemma DescendingTail(gs: seq<CategoryGroup>)
    requires Descending(gs) && gs != []
    ensures Descending(gs[1..])
  {
    forall i, j | 0 <= i < j < |gs[1..]| ensures gs[1..][i].totalCount >= gs[1..][j].totalCount {
      assert gs[1..][i] == gs[i + 1] && gs[1..][j] == gs[j + 1];
    }
  }

  /** A group larger than every other goes in front, and nothing of its size follows it. */
  lemma InsertGroupFrontStable(gs: seq<CategoryGroup>, g: CategoryGroup, n: nat)
    requires Descending(gs) && gs != [] && g.totalCount > gs[0].totalCount
    ensures Filter(InsertGroup(gs, g), CountIs(n)) == Filter(gs, CountIs(n)) + (if CountIs(n)(g) then [g] else [])
  {
    var p := CountIs(n);
    FilterCons(g, gs, p);
    if p(g) {
      forall k | 0 <= k < |gs| ensures !p(gs[k]) {
        if k > 0 {
          assert gs[0].totalCount >= gs[k].totalCount;
        }
      }
      FilterNone(gs, p);
    }
  }

  /** Groups of equal size keep the order in which their benefit types were first seen. */
  lemma {:induction false} SortGroupsStable(gs: seq<CategoryGroup>, n: nat)
    ensures Filter(SortGroups(gs), CountIs(n)) == Filter(gs, CountIs(n))
  {
    if gs != [] {
      var init, last := gs[..|gs| - 1], gs[|gs| - 1];
      SortGroupsStable(init, n);
      SortGroupsDescending(init);
      InsertGroupStable(SortGroups(init), last, n);
    }
  }

  // ---------------------------------------------------------------------------
  // The summary

  function MemberKey(): MatchResult -> string {
    (r: MatchResult) => r.specificMemberId.GetOr("")
  }

  /** Grouped by member: results with a non-empty member id. */
  function HasMemberId(): MatchResult -> bool {
    (r: MatchResult) => r.specificMemberId.Some? && r.specificMemberId.value != ""
  }

  function IsFull(): MatchResult -> bool {
    (r: MatchResult) => r.isFullyEligible
  }

  /** Not fully eligible yet scoring above 50. */
  function IsPartial(): MatchResult -> bool {
    (r: MatchResult) => !r.isFullyEligible && r.eligibilityScore > 50.0
  }

  /** The first household member with the given id. */
  function FindMember(members: seq<FamilyMember>, id: string): (r: Option<FamilyMember>)
    ensures r.Some? ==> r.value in members && r.value.id == id
    ensures r.None? <==> forall m :: m in members ==> m.id != id
    ensures r.Some? ==>
      exists i :: 0 <= i < |members| && r.value == members[i] && (forall l :: 0 <= l < i ==> members[l].id != id)
  {
    if members == [] then None
    else if members[0].id == id then Some(members[0])
    else
      var r := FindMember(members[1..], id);
      assert r.Some? ==>
        exists i :: 0 < i < |members| && r.value == members[i] && (forall l :: 0 <= l < i ==> members[l].id != id) by {
        if r.Some? {
          var i :| 0 <= i < |members[1..]| && r.value == members[1..][i]
            && forall l :: 0 <= l < i ==> members[1..][l].id != id;
          assert forall l :: 0 <= l < i + 1 ==> members[l].id != id by {
            forall l | 0 <= l < i + 1 ensures members[l].id != id {
              if l > 0 { assert members[l] == members[1..][l - 1]; }
            }
          }
        }
      }
      r
  }

  /** The first `n` elements, or all of them when there are fewer. */
  function Take<T>(s: seq<T>, n: nat): (r: seq<T>)
    ensures |r| <= n && r <= s
    ensures |s| >= n ==> |r| == n
    ensures |s| <= n ==> r == s
  {
    if |s| <= n then s else s[..n]
  }

  /** The matches for member id `id`. */
  function ForMember(matches: seq<MatchResult>, id: string): seq<MatchResult> {
    Filter(matches, WithKey(MemberKey(), HasMemberId(), id))
  }

  function MemberSummaries(ids: seq<string>, matches: seq<MatchResult>, members: seq<FamilyMember>)
    : seq<MemberSummary>
  {
    if ids == [] then []
    else
      var id := ids[|ids| - 1];
      var g := ForMember(matches, id);
      MemberSummaries(ids[..|ids| - 1], matches, members)
      + match FindMember(members, id)
        case Some(m) => [MemberSummary(m, |g|, Take(RankMatches(g), 3))]
        case None => []
  }

  /** The summary of `matches` for `profile`. */
  function Summary(matches: seq<MatchResult>, profile: UserProfile): MatchingSummary {
    MatchingSummary(
      |matches|, |matches|,
      |Filter(matches, IsFull())|,
      |Filter(matches, IsPartial())|,
      Categorize(matches),
      MemberSummaries(Keys(matches, MemberKey(), HasMemberId()), matches, profile.familyMembers))
  }

  /** How the member summaries grow by one id. */
  lemma MemberSummariesStep(ids: seq<string>, i: nat, matches: seq<MatchResult>, members: seq<FamilyMember>)
    requires i < |ids|
    ensures MemberSummaries(ids[..i + 1], matches, members)
      == MemberSummaries(ids[..i], matches, members)
         + match FindMember(members, ids[i])
           case Some(m) => [MemberSummary(m, |ForMember(matches, ids[i])|, Take(RankMatches(ForMember(matches, ids[i])), 3))]
           case None => []
  {
    assert ids[..i + 1][..i] == ids[..i];
  }

  /** The loop over the grouped member ids, skipping ids that name no household member. */
  method SummarizeMembers(order: seq<string>, groups: map<string, seq<MatchResult>>, matches: seq<MatchResult>,
                          members: seq<FamilyMember>)
    returns (summaries: seq<MemberSummary>)
    requires forall k :: k in order ==> k in groups && groups[k] == ForMember(matches, k)
    ensures summaries == MemberSummaries(order, matches, members)
  {
    summaries := [];
    for i := 0 to |order|
      invariant summaries == MemberSummaries(order[..i], matches, members)
    {
      var memberId := order[i];
      MemberSummariesStep(order, i, matches, members);
      var memberMatches := groups[memberId];
      var member := FindMember(members, memberId);
      if member.Some? {
        summaries := summaries + [MemberSummary(member.value, |memberMatches|, Take(RankMatches(memberMatches), 3))];
      }
    }
    assert order[..|order|] == order;
  }

  /** The summary builder: the counts, the member grouping, the per-member records and the categories. */
  method GetSummary(matches: seq<MatchResult>, profile: UserProfile) returns (summary: MatchingSummary)
    ensures summary == Summary(matches, profile)
  {
    var fullyEligible := Filter(matches, IsFull());
    var partiallyEligible := Filter(matches, IsPartial());
    var order, memberMatchMap := GroupBy(matches, MemberKey(), HasMemberId());
    var familyMemberMatches := SummarizeMembers(order, memberMatchMap, matches, profile.familyMembers);
    var categorized := CategorizeMatches(matches);
    summary := MatchingSummary(|matches|, |matches|, |fullyEligible|, |partiallyEligible|,
                               categorized, familyMemberMatches);
  }

  // ---------------------------------------------------------------------------
  // Properties of the summary

  lemma MemberSummariesMember(ids: seq<string>, matches: seq<MatchResult>, members: seq<FamilyMember>,
                              s: MemberSummary)
    requires s in MemberSummaries(ids, matches, members)
    ensures s.member.id in ids && FindMember(members, s.member.id) == Some(s.member)
    ensures s.matchCount == |ForMember(matches, s.member.id)|
    ensures s.topSchemes == Take(RankMatches(ForMember(matches, s.member.id)), 3)
  {
    var id := ids[|ids| - 1];
    if !(FindMember(members, id).Some? && s == MemberSummary(FindMember(members, id).value,
        |ForMember(matches, id)|, Take(RankMatches(ForMember(matches, id)), 3))) {
      assert s in MemberSummaries(ids[..|ids| - 1], matches, members);
      MemberSummariesMember(ids[..|ids| - 1], matches, members, s);
    }
  }

  /**
   * Each member summary is for a household member, counts exactly the matches for that
   * member's id, and lists at most three of them: the first three in ranking order.
   */
  lemma SummaryMembers(matches: seq<MatchResult>, profile: UserProfile, s: MemberSummary)
    requires s in Summary(matches, profile).familyMemberMatches
    ensures s.member in profile.familyMembers && s.member.id != ""
    ensures s.matchCount == |ForMember(matches, s.member.id)| > 0
    ensures |s.topSchemes| <= 3 && |s.topSchemes| == if s.matchCount < 3 then s.matchCount else 3
    ensures s.topSchemes <= RankMatches(ForMember(matches, s.member.id))
    ensures forall r :: r in s.topSchemes ==> r in matches && r.specificMemberId == Some(s.member.id)
  {
    var ids := Keys(matches, MemberKey(), HasMemberId());
    MemberSummariesMember(ids, matches, profile.familyMembers, s);
    var id := s.member.id;
    var g := ForMember(matches, id);
    KeysFacts(matches, MemberKey(), HasMemberId());
    var i :| 0 <= i < |matches| && HasMemberId()(matches[i]) && MemberKey()(matches[i]) == id;
    assert WithKey(MemberKey(), HasMemberId(), id)(matches[i]);
    RankMatchesPermutes(g);
    forall r | r in s.topSchemes ensures r in matches && r.specificMemberId == Some(id) {
      assert r in RankMatches(g);
      assert r in multiset(g);
      var k := PositionOf(g, r);
      assert WithKey(MemberKey(), HasMemberId(), id)(g[k]);
    }
  }

  /** The member summaries of `ids` are those of all but the last id, then the last one's. */
  lemma MemberSummariesSnoc(ids: seq<string>, matches: seq<MatchResult>, members: seq<FamilyMember>)
    requires ids != []
    ensures var last := ids[|ids| - 1];
      MemberSummaries(ids, matches, members) == MemberSummaries(ids[..|ids| - 1], matches, members)
        + match FindMember(members, last)
          case Some(m) => [MemberSummary(m, |ForMember(matches, last)|, Take(RankMatches(ForMember(matches, last)), 3))]
          case None => []
  {
  }

  /** An id that names a household member gets a summary of its matches. */
  lemma {:induction false} MemberSummariesCover(ids: seq<string>, matches: seq<MatchResult>,
                                                members: seq<FamilyMember>, id: string)
    returns (s: MemberSummary)
    requires id in ids && FindMember(members, id).Some?
    ensures s in MemberSummaries(ids, matches, members)
    ensures s.member == FindMember(members, id).value && s.matchCount == |ForMember(matches, id)|
  {
    var init, last := ids[..|ids| - 1], ids[|ids| - 1];
    MemberSummariesSnoc(ids, matches, members);
    if id == last {
      s := MemberSummary(FindMember(members, id).value, |ForMember(matches, id)|,
                         Take(RankMatches(ForMember(matches, id)), 3));
    } else {
      assert id in init by {
        var k :| 0 <= k < |ids| && ids[k] == id;
        assert init[k] == id;
      }
      s := MemberSummariesCover(init, matches, members, id);
    }
  }

  /** No two summaries are for the same member id. */
  predicate DistinctMembers(ss: seq<MemberSummary>) {
    forall i, j :: 0 <= i < j < |ss| ==> ss[i].member.id != ss[j].member.id
  }

  /** Distinct ids give summaries for distinct members. */
  lemma {:induction false} MemberSummariesDistinct(ids: seq<string>, matches: seq<MatchResult>,
                                                   members: seq<FamilyMember>)
    requires Distinct(ids)
    ensures DistinctMembers(MemberSummaries(ids, matches, members))
  {
    if ids != [] {
      var init, last := ids[..|ids| - 1], ids[|ids| - 1];
      assert Distinct(init) by {
        forall i, j | 0 <= i < j < |init| ensures init[i] != init[j] {
          assert init[i] == ids[i] && init[j] == ids[j];
        }
      }
      MemberSummariesDistinct(init, matches, members);
      var before := MemberSummaries(init, matches, members);
      var ss := MemberSummaries(ids, matches, members);
      var tail: seq<MemberSummary> := match FindMember(members, last)
        case Some(m) => [MemberSummary(m, |ForMember(matches, last)|, Take(RankMatches(ForMember(matches, last)), 3))]
        case None => [];
      assert ss == before + tail;
      assert |tail| <= 1 && forall t :: t in tail ==> t.member.id == last;
      forall i, j | 0 <= i < j < |ss| ensures ss[i].member.id != ss[j].member.id {
        if j >= |before| {
          assert ss[i] == before[i] && ss[j] == tail[j - |before|];
          MemberSummariesMember(init, matches, members, before[i]);
        } else {
          assert ss[i] == before[i] && ss[j] == before[j];
        }
      }
    }
  }

  /**
   * Every household member with a match gets a summary counting those matches, and no
   * member id has two summaries.
   */
  lemma SummaryMembersComplete(matches: seq<MatchResult>, profile: UserProfile)
    ensures var ss := Summary(matches, profile).familyMemberMatches;
      forall r :: r in matches && HasMemberId()(r) && FindMember(profile.familyMembers, MemberKey()(r)).Some? ==>
        exists s ::
          s in ss && s.member == FindMember(profile.familyMembers, MemberKey()(r)).value
          && s.matchCount == |ForMember(matches, MemberKey()(r))|
    ensures DistinctMembers(Summary(matches, profile).familyMemberMatches)
  {
    var ids := Keys(matches, MemberKey(), HasMemberId());
    KeysFacts(matches, MemberKey(), HasMemberId());
    forall r | r in matches && HasMemberId()(r) && FindMember(profile.familyMembers, MemberKey()(r)).Some?
      ensures exists s ::
        s in MemberSummaries(ids, matches, profile.familyMembers)
        && s.member == FindMember(profile.familyMembers, MemberKey()(r)).value
        && s.matchCount == |ForMember(matches, MemberKey()(r))|
    {
      var k :| 0 <= k < |matches| && matches[k] == r;
      assert MemberKey()(r) in ids;
      var s := MemberSummariesCover(ids, matches, profile.familyMembers, MemberKey()(r));
    }
    MemberSummariesDistinct(ids, matches, profile.familyMembers);
  }

  /** The counts: both totals are the number of matches, and the eligible counts are filters. */
  lemma SummaryCounts(matches: seq<MatchResult>, profile: UserProfile)
    ensures var s := Summary(matches, profile);
      && s.totalSchemesAnalyzed == s.totalMatches == |matches|
      && s.fullyEligibleCount + s.partiallyEligibleCount <= |matches|
      && TotalCount(s.categorizedResults) == |matches|
  {
    FilterSplit(matches, IsFull(), (r: MatchResult) => !r.isFullyEligible);
    FilterMonotone(matches, IsPartial(), (r: MatchResult) => !r.isFullyEligible);
    CategorizeTotal(matches);
  }

  /**
   * On the matcher's own output every match is fully eligible, so the partially eligible
   * count is always 0: a result that is not fully eligible scores 0, never above 50.
   */
  lemma EngineSummaryCounts(profile: UserProfile, schemes: seq<SchemeTypes.Scheme>)
    ensures var matches := Matching.Matches(profile, schemes);
      && Summary(matches, profile).fullyEligibleCount == |matches|
      && Summary(matches, profile).partiallyEligibleCount == 0
  {
    var matches := Matching.Matches(profile, schemes);
    Matching.MatchesEligible(profile, schemes);
    FilterAll(matches, IsFull());
    FilterNone(matches, IsPartial());
  }
}
