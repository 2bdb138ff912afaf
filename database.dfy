/**
 * The in-memory scheme catalog: a map from scheme id to scheme, kept in insertion
 * order as a JavaScript `Map` is, the time of the last refresh, and the staleness
 * threshold. Loading, adding, updating, deleting and clearing change it in place; the
 * queries filter its schemes in insertion order.
 */
module SchemesDatabase {
  import opened Wrappers
  import opened Enums
  import opened Text
  import opened Seqs
  import opened Groups
  import opened SchemeTypes
  import opened SchemeValidation

  const DefaultStalenessThresholdDays := 30

  /** The fields an update may carry; absent fields keep the stored value. */
  datatype SchemeUpdate = SchemeUpdate(
    id: Option<string>,
    name: Option<string>,
    description: Option<string>,
    simplifiedDescription: Option<string>,
    benefitType: Option<BenefitType>,
    benefitCategories: Option<seq<BenefitType>>,
    governmentLevel: Option<GovernmentLevel>,
    implementingAgency: Option<string>,
    eligibilityCriteria: Option<seq<Criterion>>,
    targetDemographics: Option<seq<string>>,
    benefits: Option<seq<Benefit>>,
    applicationProcess: Option<seq<ApplicationStep>>,
    documents: Option<seq<RequiredDocument>>,
    applicationDeadline: Option<int>,
    isOpenForApplication: Option<bool>,
    contactInfo: Option<ContactInfo>,
    source: Option<DataSource>,
    isActive: Option<bool>)

  function Pick<T>(update: Option<T>, existing: T): T {
    if update.Some? then update.value else existing
  }

  function PickOpt<T>(update: Option<T>, existing: Option<T>): Option<T> {
    if update.Some? then update else existing
  }

  /** The stored scheme with the update spread over it and `lastUpdated` set to `now`. */
  function Merge(e: Scheme, u: SchemeUpdate, now: int): Scheme {
    Scheme(
      Pick(u.id, e.id), Pick(u.name, e.name), Pick(u.description, e.description),
      Pick(u.simplifiedDescription, e.simplifiedDescription), Pick(u.benefitType, e.benefitType),
      Pick(u.benefitCategories, e.benefitCategories), Pick(u.governmentLevel, e.governmentLevel),
      Pick(u.implementingAgency, e.implementingAgency), Pick(u.eligibilityCriteria, e.eligibilityCriteria),
      Pick(u.targetDemographics, e.targetDemographics), Pick(u.benefits, e.benefits),
      PickOpt(u.applicationProcess, e.applicationProcess), PickOpt(u.documents, e.documents),
      PickOpt(u.applicationDeadline, e.applicationDeadline),
      Pick(u.isOpenForApplication, e.isOpenForApplication),
      PickOpt(u.contactInfo, e.contactInfo), PickOpt(u.source, e.source),
      now,
      Pick(u.isActive, e.isActive))
  }

  const NoUpdate := SchemeUpdate(None, None, None, None, None, None, None, None, None, None, None,
                                 None, None, None, None, None, None, None)

  /** An empty update only refreshes the timestamp; the fields an update carries win over the stored ones. */
  lemma MergeFacts(e: Scheme, u: SchemeUpdate, now: int)
    ensures Merge(e, NoUpdate, now) == e.(lastUpdated := now)
    ensures Merge(e, u, now).lastUpdated == now
    ensures u.name.Some? ==> Merge(e, u, now).name == u.name.value
    ensures u.name.None? ==> Merge(e, u, now).name == e.name
    ensures u.isActive.Some? ==> Merge(e, u, now).isActive == u.isActive.value
    ensures u.isActive.None? ==> Merge(e, u, now).isActive == e.isActive
    ensures u.source.Some? ==> Merge(e, u, now).source == u.source
    ensures u.source.None? ==> Merge(e, u, now).source == e.source
    ensures u.eligibilityCriteria.None? ==> Merge(e, u, now).eligibilityCriteria == e.eligibilityCriteria
  {
  }

  /** The stored schemes in key order. */
  function Ordered(keys: seq<string>, m: map<string, Scheme>): (vs: seq<Scheme>)
    requires forall k :: k in keys ==> k in m
    ensures |vs| == |keys|
    ensures forall i :: 0 <= i < |keys| ==> vs[i] == m[keys[i]]
  {
    if keys == [] then [] else Ordered(keys[..|keys| - 1], m) + [m[keys[|keys| - 1]]]
  }

  /** The map `loadSchemes` builds: one entry per id, a later scheme replacing an earlier one. */
  function LoadMap(xs: seq<Scheme>): map<string, Scheme> {
    if xs == [] then map[] else LoadMap(xs[..|xs| - 1])[xs[|xs| - 1].id := xs[|xs| - 1]]
  }

  /** The loaded keys are exactly the ids of the loaded schemes. */
  lemma {:induction false} LoadMapKeys(xs: seq<Scheme>)
    ensures forall k :: k in LoadMap(xs) <==> exists i :: 0 <= i < |xs| && xs[i].id == k
  {
    if xs != [] {
      var init := xs[..|xs| - 1];
      LoadMapKeys(init);
      forall k ensures k in LoadMap(xs) <==> exists i :: 0 <= i < |xs| && xs[i].id == k {
        if k in LoadMap(init) {
          var i :| 0 <= i < |init| && init[i].id == k;
          assert xs[i] == init[i];
        }
        if exists i :: 0 <= i < |xs| && xs[i].id == k {
          var i :| 0 <= i < |xs| && xs[i].id == k;
          if i < |init| {
            assert init[i] == xs[i];
          }
        }
      }
    }
  }

  /** The scheme stored under an id is the last loaded scheme with that id. */
  lemma {:induction false} LoadMapLastWins(xs: seq<Scheme>, i: nat)
    requires i < |xs|
    requires forall j :: i < j < |xs| ==> xs[j].id != xs[i].id
    ensures xs[i].id in LoadMap(xs) && LoadMap(xs)[xs[i].id] == xs[i]
  {
    var init := xs[..|xs| - 1];
    if i < |xs| - 1 {
      forall j | i < j < |init| ensures init[j].id != init[i].id {
        assert init[j] == xs[j];
      }
      LoadMapLastWins(init, i);
    }
  }

  function IdOf(): Scheme -> string {
    (s: Scheme) => s.id
  }

  function AnyScheme(): Scheme -> bool {
    (s: Scheme) => true
  }

  function TypeOf(): Scheme -> BenefitType {
    (s: Scheme) => s.benefitType
  }

  function IsActive(): Scheme -> bool {
    (s: Scheme) => s.isActive
  }

  function InCategory(c: BenefitType): Scheme -> bool {
    (s: Scheme) => s.isActive && (s.benefitType == c || c in s.benefitCategories)
  }

  /** Active, and central or mentioning the state (already lower-cased) in its name or description. */
  function ForState(state: string): Scheme -> bool {
    (s: Scheme) => s.isActive
      && (s.governmentLevel == Central || Text.Contains(Lower(s.name + " " + s.description), state))
  }

  /** The text a search looks in. */
  function SearchableText(s: Scheme): string {
    Lower(Join([s.name, s.description, s.simplifiedDescription, s.implementingAgency] + s.targetDemographics, " "))
  }

  /** The query's words longer than two characters. */
  function QueryTerms(query: string): seq<string> {
    Filter(Words(Lower(query)), (t: string) => |t| > 2)
  }

  function SearchHit(terms: seq<string>): Scheme -> bool {
    (s: Scheme) => s.isActive && exists k :: 0 <= k < |terms| && Text.Contains(SearchableText(s), terms[k])
  }

  function NameHit(query: string): Scheme -> bool {
    (s: Scheme) => Text.Contains(Lower(s.name), Lower(query))
  }

  function NoNameHit(query: string): Scheme -> bool {
    (s: Scheme) => !Text.Contains(Lower(s.name), Lower(query))
  }

  /**
   * The hits, name matches first. A stable sort whose comparator only compares a 0/1 key
   * leaves the two classes each in input order, so it is this concatenation.
   */
  function SearchOrder(hits: seq<Scheme>, query: string): seq<Scheme> {
    Filter(hits, NameHit(query)) + Filter(hits, NoNameHit(query))
  }

  /**
   * Ordering the hits only reorders them, puts every name match ahead of every other hit,
   * and keeps the name matches, and the other hits, each in their order among the hits.
   */
  lemma SearchOrderFacts(hits: seq<Scheme>, query: string)
    ensures multiset(SearchOrder(hits, query)) == multiset(hits)
    ensures forall s :: s in SearchOrder(hits, query) ==> s in hits
    ensures var r := SearchOrder(hits, query);
      forall i, j :: 0 <= i < j < |r| && NameHit(query)(r[j]) ==> NameHit(query)(r[i])
    ensures Filter(SearchOrder(hits, query), NameHit(query)) == Filter(hits, NameHit(query))
    ensures Filter(SearchOrder(hits, query), NoNameHit(query)) == Filter(hits, NoNameHit(query))
  {
    var a, b := Filter(hits, NameHit(query)), Filter(hits, NoNameHit(query));
    FilterSplit(hits, NameHit(query), NoNameHit(query));
    var r := a + b;
    FilterAppend(a, b, NameHit(query));
    FilterAppend(a, b, NoNameHit(query));
    FilterAll(a, NameHit(query));
    FilterNone(b, NameHit(query));
    FilterNone(a, NoNameHit(query));
    FilterAll(b, NoNameHit(query));
    forall i, j | 0 <= i < j < |r| && NameHit(query)(r[j]) ensures NameHit(query)(r[i]) {
      if j < |a| {
        assert r[i] == a[i];
      }
    }
    forall s | s in r ensures s in hits {
      assert s in multiset(r);
    }
  }

  /** The count of active schemes per benefit type, as `getStats` reports it. */
  datatype Stats = Stats(
    totalSchemes: nat,
    activeSchemes: nat,
    staleSchemes: nat,
    lastRefresh: Option<int>,
    schemesByCategory: map<BenefitType, nat>)

  /** The sum of the counts of `cs`. */
  function CountSum(cs: seq<BenefitType>, m: map<BenefitType, nat>): nat
    requires forall c :: c in cs ==> c in m
  {
    if cs == [] then 0 else CountSum(cs[..|cs| - 1], m) + m[cs[|cs| - 1]]
  }

  class InMemorySchemesDatabase {
    var schemes: map<string, Scheme>
    /** The keys of `schemes` in insertion order. */
    var order: seq<string>
    var lastRefresh: Option<int>
    const stalenessThresholdDays: int

    ghost predicate Valid()
      reads this
    {
      Distinct(order) && forall k :: k in schemes <==> k in order
    }

    /** An empty catalog; the threshold is the configured one, else 30 days. */
    constructor (thresholdDays: Option<int>)
      ensures Valid()
      ensures schemes == map[] && order == [] && lastRefresh == None
      ensures stalenessThresholdDays == thresholdDays.GetOr(DefaultStalenessThresholdDays)
    {
      schemes := map[];
      order := [];
      lastRefresh := None;
      stalenessThresholdDays := thresholdDays.GetOr(DefaultStalenessThresholdDays);
    }

    /** The stored schemes in insertion order. */
    function Values(): seq<Scheme>
      reads this
      requires Valid()
    {
      Ordered(order, schemes)
    }

    /** `Map.prototype.set`: replace in place, or append a new key. */
    method Set(id: string, s: Scheme)
      requires Valid()
      modifies this
      ensures Valid()
      ensures schemes == old(schemes)[id := s]
      ensures order == if id in old(schemes) then old(order) else old(order) + [id]
      ensures lastRefresh == old(lastRefresh)
    {
      if id !in schemes {
        order := order + [id];
      }
      schemes := schemes[id := s];
    }

    /** Replace the whole catalog with `xs` and record the refresh time. */
    method LoadSchemes(xs: seq<Scheme>, now: int)
      requires Valid()
      modifies this
      ensures Valid()
      ensures schemes == LoadMap(xs)
      ensures order == Keys(xs, IdOf(), AnyScheme())
      ensures lastRefresh == Some(now)
    {
      schemes := map[];
      order := [];
      for i := 0 to |xs|
        invariant Valid()
        invariant schemes == LoadMap(xs[..i])
        invariant order == Keys(xs[..i], IdOf(), AnyScheme())
      {
        assert xs[..i + 1][..i] == xs[..i];
        Set(xs[i].id, xs[i]);
      }
      assert xs[..|xs|] == xs;
      lastRefresh := Some(now);
    }

    /** Store `s` if it validates; the validation report is returned either way. */
    method AddScheme(s: Scheme, now: int) returns (validation: SchemeReport)
      requires Valid()
      modifies this
      ensures Valid()
      ensures validation.errors == SchemeErrors(s) && validation.warnings == SchemeWarnings(s, now)
      ensures validation.isValid <==> SchemeValid(s)
      ensures SchemeValid(s) ==> schemes == old(schemes)[s.id := s]
                                 && order == (if s.id in old(schemes) then old(order) else old(order) + [s.id])
      ensures !SchemeValid(s) ==> schemes == old(schemes) && order == old(order)
      ensures lastRefresh == old(lastRefresh)
    {
      validation := ValidateScheme(s, now);
      if validation.isValid {
        Set(s.id, s);
      }
    }

    /**
     * Merge `updates` into the scheme stored under `id`, stamped `now`, and store it
     * under the same key if it validates. Nothing changes when the id is unknown or the
     * merged scheme is invalid.
     */
    method UpdateScheme(id: string, updates: SchemeUpdate, now: int) returns (r: Option<Scheme>)
      requires Valid()
      modifies this
      ensures Valid()
      ensures id !in old(schemes) ==> r == None && schemes == old(schemes)
      ensures id in old(schemes) && SchemeValid(Merge(old(schemes)[id], updates, now)) ==>
        r == Some(Merge(old(schemes)[id], updates, now))
        && schemes == old(schemes)[id := Merge(old(schemes)[id], updates, now)]
      ensures id in old(schemes) && !SchemeValid(Merge(old(schemes)[id], updates, now)) ==>
        r == None && schemes == old(schemes)
      ensures order == old(order) && lastRefresh == old(lastRefresh)
    {
      if id !in schemes {
        return None;
      }
      var existing := schemes[id];
      var updated := Merge(existing, updates, now);
      var validation := ValidateScheme(updated, now);
      if validation.isValid {
        Set(id, updated);
        return Some(updated);
      }
      return None;
    }

    /** Remove the entry for `id`, reporting whether there was one. */
    method DeleteScheme(id: string) returns (present: bool)
      requires Valid()
      modifies this
      ensures Valid()
      ensures present <==> id in old(schemes)
      ensures schemes == old(schemes) - {id}
      ensures order == Filter(old(order), (k: string) => k != id)
      ensures lastRefresh == old(lastRefresh)
    {
      present := id in schemes;
      FilterDistinct(order, (k: string) => k != id);
      order := Filter(order, (k: string) => k != id);
      schemes := schemes - {id};
    }

    method Clear()
      requires Valid()
      modifies this
      ensures Valid()
      ensures schemes == map[] && order == [] && lastRefresh == None
    {
      schemes := map[];
      order := [];
      lastRefresh := None;
    }

    /** Fetching from the sources is not part of the catalog; the refresh time is recorded. */
    method RefreshFromSources(now: int)
      modifies this
      ensures schemes == old(schemes) && order == old(order) && lastRefresh == Some(now)
    {
      lastRefresh := Some(now);
    }

    // -------------------------------------------------------------------------
    // Queries

    /** The active schemes, in insertion order. */
    function GetAllSchemes(): (r: seq<Scheme>)
      reads this
      requires Valid()
      ensures forall s :: s in r <==> s in schemes.Values && s.isActive
      ensures r == Filter(Values(), IsActive())
    {
      var vs := Values();
      assert forall s :: s in vs <==> s in schemes.Values by {
        forall s | s in schemes.Values ensures s in vs {
          var k :| k in schemes && schemes[k] == s;
          var i :| 0 <= i < |order| && order[i] == k;
          assert vs[i] == s;
        }
      }
      Filter(vs, IsActive())
    }

    function GetSchemeById(id: string): (r: Option<Scheme>)
      reads this
      ensures r.Some? <==> id in schemes
      ensures r.Some? ==> r.value == schemes[id]
    {
      if id in schemes then Some(schemes[id]) else None
    }

    /** Active schemes whose type is `c` or whose categories include it. */
    function GetSchemesByCategory(c: BenefitType): (r: seq<Scheme>)
      reads this
      requires Valid()
      ensures forall s :: s in r ==> s in Values() && s.isActive && (s.benefitType == c || c in s.benefitCategories)
      ensures forall s :: s in Values() && s.isActive && (s.benefitType == c || c in s.benefitCategories) ==> s in r
    {
      Filter(Values(), InCategory(c))
    }

    /** Active schemes that are central or mention the state, compared lower-cased. */
    function GetSchemesByState(state: string): (r: seq<Scheme>)
      reads this
      requires Valid()
      ensures forall s :: s in r ==> s in Values() && s.isActive
      ensures forall s :: s in Values() && s.isActive && s.governmentLevel == Central ==> s in r
      ensures forall s ::
        s in Values() && s.isActive && Text.Contains(Lower(s.name + " " + s.description), Lower(state))
        ==> s in r
      ensures forall s :: s in r && s.governmentLevel != Central ==>
        Text.Contains(Lower(s.name + " " + s.description), Lower(state))
    {
      Filter(Values(), ForState(Lower(state)))
    }

    /**
     * Active schemes whose searchable text contains a query word longer than two
     * characters; those whose name contains the whole query come first.
     */
    function SearchSchemes(query: string): (r: seq<Scheme>)
      reads this
      requires Valid()
      ensures var hits := Filter(Values(), SearchHit(QueryTerms(query)));
        multiset(r) == multiset(hits)
      ensures forall s :: s in r ==> s in Values() && s.isActive
      ensures forall i, j :: 0 <= i < j < |r| && NameHit(query)(r[j]) ==> NameHit(query)(r[i])
      ensures var hits := Filter(Values(), SearchHit(QueryTerms(query)));
        Filter(r, NameHit(query)) == Filter(hits, NameHit(query))
        && Filter(r, NoNameHit(query)) == Filter(hits, NoNameHit(query))
    {
      var hits := Filter(Values(), SearchHit(QueryTerms(query)));
      SearchOrderFacts(hits, query);
      SearchOrder(hits, query)
    }

    /** The stale schemes, against the given threshold or else the configured one. */
    function GetStaleSchemes(thresholdDays: Option<int>, now: int): (r: seq<Scheme>)
      reads this
      requires Valid()
      ensures r == SchemeValidation.GetStaleSchemes(Values(), thresholdDays.GetOr(stalenessThresholdDays), now)
      ensures forall s :: s in r <==>
        s in Values() && IsSchemeStale(s, thresholdDays.GetOr(stalenessThresholdDays), now)
    {
      var vs := Values();
      var t := thresholdDays.GetOr(stalenessThresholdDays);
      GetStaleSchemesExact(vs, [], t, now);
      SchemeValidation.GetStaleSchemes(vs, t, now)
    }

    /** The statistics: sizes, stale count, last refresh and the count of active schemes per type. */
    method GetStats(now: int) returns (stats: Stats)
      requires Valid()
      ensures stats.totalSchemes == |schemes|
      ensures stats.activeSchemes == |Filter(Values(), IsActive())| <= stats.totalSchemes
      ensures stats.staleSchemes == |SchemeValidation.GetStaleSchemes(Values(), stalenessThresholdDays, now)|
      ensures stats.lastRefresh == lastRefresh
      ensures var active := Filter(Values(), IsActive());
        && (forall c :: c in stats.schemesByCategory <==> c in Keys(active, TypeOf(), AnyScheme()))
        && (forall c :: c in stats.schemesByCategory ==>
              stats.schemesByCategory[c] == |Filter(active, WithKey(TypeOf(), AnyScheme(), c))| > 0)
        && CountSum(Keys(active, TypeOf(), AnyScheme()), stats.schemesByCategory) == stats.activeSchemes
    {
      var allSchemes := Values();
      var activeSchemes := Filter(allSchemes, IsActive());
      var staleSchemes := SchemeValidation.GetStaleSchemes(allSchemes, stalenessThresholdDays, now);
      var counts := CountByCategory(activeSchemes);
      StatsFacts(activeSchemes, counts);
      DistinctCard(order);
      assert schemes.Keys == set k | k in order;
      stats := Stats(|allSchemes|, |activeSchemes|, |staleSchemes|, lastRefresh, counts);
    }
  }

  /** The counting loop: one entry per benefit type, counting the schemes of that type. */
  method CountByCategory(active: seq<Scheme>) returns (counts: map<BenefitType, nat>)
    ensures forall c :: c in counts <==> c in Keys(active, TypeOf(), AnyScheme())
    ensures forall c :: c in counts ==> counts[c] == |Filter(active, WithKey(TypeOf(), AnyScheme(), c))|
  {
    counts := map[];
    for i := 0 to |active|
      invariant forall c :: c in counts <==> c in Keys(active[..i], TypeOf(), AnyScheme())
      invariant forall c :: c in counts ==>
        counts[c] == |Filter(active[..i], WithKey(TypeOf(), AnyScheme(), c))|
    {
      var scheme := active[i];
      var category := scheme.benefitType;
      assert active[..i + 1] == active[..i] + [scheme];
      forall c ensures Filter(active[..i + 1], WithKey(TypeOf(), AnyScheme(), c))
        == Filter(active[..i], WithKey(TypeOf(), AnyScheme(), c))
           + (if WithKey(TypeOf(), AnyScheme(), c)(scheme) then [scheme] else [])
      {
        FilterSnoc(active[..i], scheme, WithKey(TypeOf(), AnyScheme(), c));
      }
      if category !in counts {
        KeyAbsent(active[..i], TypeOf(), AnyScheme(), category);
      }
      counts := counts[category := (if category in counts then counts[category] else 0) + 1];
    }
    assert active[..|active|] == active;
  }

  /** Counts that are the group sizes are positive and add up to the number of schemes. */
  lemma StatsFacts(active: seq<Scheme>, counts: map<BenefitType, nat>)
    requires forall c :: c in counts <==> c in Keys(active, TypeOf(), AnyScheme())
    requires forall c :: c in counts ==> counts[c] == |Filter(active, WithKey(TypeOf(), AnyScheme(), c))|
    ensures forall c :: c in counts ==> counts[c] > 0
    ensures CountSum(Keys(active, TypeOf(), AnyScheme()), counts) == |active|
  {
    var ks := Keys(active, TypeOf(), AnyScheme());
    KeysFacts(active, TypeOf(), AnyScheme());
    forall c | c in counts ensures counts[c] > 0 {
      var i :| 0 <= i < |active| && AnyScheme()(active[i]) && TypeOf()(active[i]) == c;
      assert WithKey(TypeOf(), AnyScheme(), c)(active[i]);
    }
    CountSumIsSumCounts(ks, active, counts);
    KeysCover(active, TypeOf(), AnyScheme());
    FilterAll(active, AnyScheme());
  }

  lemma {:induction false} CountSumIsSumCounts(cs: seq<BenefitType>, active: seq<Scheme>, counts: map<BenefitType, nat>)
    requires forall c :: c in cs ==> c in counts
    requires forall c :: c in counts ==> counts[c] == |Filter(active, WithKey(TypeOf(), AnyScheme(), c))|
    ensures CountSum(cs, counts) == SumCounts(cs, active, TypeOf(), AnyScheme())
  {
    if cs != [] {
      CountSumIsSumCounts(cs[..|cs| - 1], active, counts);
    }
  }
}
