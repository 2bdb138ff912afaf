/**
 * Scheme validation: per-part checks that accumulate error and warning messages, the
 * sequential step-numbering check, source attribution and the staleness test.
 * Messages are closed datatypes; `Text()` gives the exact wording.
 */
module SchemeValidation {
  import opened Wrappers
  import opened Text
  import opened Seqs
  import opened SchemeTypes

  // ---------------------------------------------------------------------------
  // Messages

  /** The fields every scheme must carry, in the order they are checked. */
  datatype SchemeField =
    | IdField | NameField | DescriptionField | BenefitTypeField | BenefitCategoriesField
    | GovernmentLevelField | ImplementingAgencyField | EligibilityCriteriaField | BenefitsField
    | ApplicationProcessField | DocumentsField | ContactInfoField | SourceField
    | LastUpdatedField | IsActiveField
  {
    function Name(): string {
      match this
      case IdField => "id"
      case NameField => "name"
      case DescriptionField => "description"
      case BenefitTypeField => "benefitType"
      case BenefitCategoriesField => "benefitCategories"
      case GovernmentLevelField => "governmentLevel"
      case ImplementingAgencyField => "implementingAgency"
      case EligibilityCriteriaField => "eligibilityCriteria"
      case BenefitsField => "benefits"
      case ApplicationProcessField => "applicationProcess"
      case DocumentsField => "documents"
      case ContactInfoField => "contactInfo"
      case SourceField => "source"
      case LastUpdatedField => "lastUpdated"
      case IsActiveField => "isActive"
    }
  }

  const RequiredSchemeFields: seq<SchemeField> :=
    [IdField, NameField, DescriptionField, BenefitTypeField, BenefitCategoriesField,
     GovernmentLevelField, ImplementingAgencyField, EligibilityCriteriaField, BenefitsField,
     ApplicationProcessField, DocumentsField, ContactInfoField, SourceField,
     LastUpdatedField, IsActiveField]

  datatype CriterionProblem = NoId | NoType | NoField | NoOperator | NoValue | NoDescription
  {
    function Text(): string {
      match this
      case NoId => "Criterion must have an id"
      case NoType => "Criterion must have a type"
      case NoField => "Criterion must have a field"
      case NoOperator => "Criterion must have an operator"
      case NoValue => "Criterion must have a value"
      case NoDescription => "Criterion must have a description"
    }
  }

  datatype StepProblem = BadStepNumber | NoTitle | NoStepDescription | NoEstimatedTime | NoOnlineUrl
  {
    function Text(): string {
      match this
      case BadStepNumber => "Application step must have a valid step number"
      case NoTitle => "Application step must have a title"
      case NoStepDescription => "Application step must have a description"
      case NoEstimatedTime => "Application step must have estimated time"
      case NoOnlineUrl => "Online available step should have an online URL"
    }
  }

  datatype DocumentProblem = NoName | NoDocumentDescription
  {
    function Text(): string {
      match this
      case NoName => "Document must have a name"
      case NoDocumentDescription => "Document must have a description"
    }
  }

  datatype SourceProblem = NoSourceName | NoUrl | NoLastAccessed | NoOfficialFlag
  {
    function Text(): string {
      match this
      case NoSourceName => "Source must have a name"
      case NoUrl => "Source must have a URL"
      case NoLastAccessed => "Source must have last accessed date"
      case NoOfficialFlag => "Source must indicate if it is official"
    }
  }

  /** A scheme error. Positions are 0-based; the text numbers them from 1. */
  datatype SchemeError =
    | MissingField(field: SchemeField)
    | ShortName
    | ShortDescription
    | InCriterion(index: nat, criterionProblem: CriterionProblem)
    | InStep(index: nat, stepProblem: StepProblem)
    | InDocument(index: nat, documentProblem: DocumentProblem)
    | InSource(sourceProblem: SourceProblem)
    | NoDepartment
  {
    function Text(): string {
      match this
      case MissingField(f) => "Missing required field: " + f.Name()
      case ShortName => "Scheme name must be at least 3 characters"
      case ShortDescription => "Scheme description must be at least 10 characters"
      case InCriterion(i, p) => "Criterion " + NatToString(i + 1) + ": " + p.Text()
      case InStep(i, p) => "Step " + NatToString(i + 1) + ": " + p.Text()
      case InDocument(i, p) => "Document " + NatToString(i + 1) + ": " + p.Text()
      case InSource(p) => "Source: " + p.Text()
      case NoDepartment => "Contact info must have a department"
    }
  }

  datatype SchemeWarning =
    | NoCriteria | NoSteps | NotSequential | NoContactMethod | NoBenefits | NotOpen | DeadlinePassed
  {
    function Text(): string {
      match this
      case NoCriteria => "Scheme has no eligibility criteria"
      case NoSteps => "Scheme has no application steps"
      case NotSequential => "Application steps should be numbered sequentially starting from 1"
      case NoContactMethod => "Contact info should have at least one contact method"
      case NoBenefits => "Scheme has no benefits listed"
      case NotOpen => "Active scheme is not open for applications"
      case DeadlinePassed => "Application deadline has passed"
    }
  }

  datatype SchemeReport = SchemeReport(isValid: bool, errors: seq<SchemeError>, warnings: seq<SchemeWarning>)

  /** A one-element list when `b` holds, the empty list otherwise. */
  function When<T>(b: bool, x: T): seq<T> {
    if b then [x] else []
  }

  lemma InWhen<T>(b: bool, x: T, y: T)
    ensures y in When(b, x) <==> b && y == x
  {
  }

  lemma InConcat<T>(a: seq<T>, b: seq<T>, y: T)
    ensures y in a + b <==> y in a || y in b
  {
  }

  // ---------------------------------------------------------------------------
  // Criteria

  predicate CriterionDefect(c: Criterion, p: CriterionProblem) {
    match p
    case NoId => c.id == ""
    case NoType => c.ctype.None?
    case NoField => c.field == ""
    case NoOperator => c.operator.None?
    case NoValue => c.value.None?
    case NoDescription => c.description == ""
  }

  /** A criterion is complete when every identifying part is given and its value is defined. */
  predicate CriterionComplete(c: Criterion) {
    c.id != "" && c.ctype.Some? && c.field != "" && c.operator.Some? && c.value.Some? && c.description != ""
  }

  function CriterionErrors(c: Criterion): seq<CriterionProblem> {
    When(c.id == "", NoId) + When(c.ctype.None?, NoType) + When(c.field == "", NoField)
      + When(c.operator.None?, NoOperator) + When(c.value.None?, NoValue)
      + When(c.description == "", NoDescription)
  }

  function CriterionDefects(c: Criterion): nat {
    (if c.id == "" then 1 else 0) + (if c.ctype.None? then 1 else 0) + (if c.field == "" then 1 else 0)
      + (if c.operator.None? then 1 else 0) + (if c.value.None? then 1 else 0)
      + (if c.description == "" then 1 else 0)
  }

  /** One message per defect: none exactly for a complete criterion. */
  lemma CriterionErrorsExact(c: Criterion, p: CriterionProblem)
    ensures p in CriterionErrors(c) <==> CriterionDefect(c, p)
  {
    var a, b, d := When(c.id == "", NoId), When(c.ctype.None?, NoType), When(c.field == "", NoField);
    var e, f, g := When(c.operator.None?, NoOperator), When(c.value.None?, NoValue), When(c.description == "", NoDescription);
    InConcat(a, b, p);
    InConcat(a + b, d, p);
    InConcat(a + b + d, e, p);
    InConcat(a + b + d + e, f, p);
    InConcat(a + b + d + e + f, g, p);
    InWhen(c.id == "", NoId, p);
    InWhen(c.ctype.None?, NoType, p);
    InWhen(c.field == "", NoField, p);
    InWhen(c.operator.None?, NoOperator, p);
    InWhen(c.value.None?, NoValue, p);
    InWhen(c.description == "", NoDescription, p);
  }
  lemma CriterionErrorsCount(c: Criterion)
    ensures |CriterionErrors(c)| == CriterionDefects(c)
  {
  }
  lemma CriterionErrorsNone(c: Criterion)
    ensures CriterionErrors(c) == [] <==> CriterionComplete(c)
  {
  }

  method ValidateCriterion(c: Criterion) returns (errors: seq<CriterionProblem>)
    ensures errors == CriterionErrors(c)
  {
    errors := [];
    if c.id == "" { errors := errors + [NoId]; }
    assert errors == When(c.id == "", NoId);
    if c.ctype.None? { errors := errors + [NoType]; }
    assert errors == When(c.id == "", NoId) + When(c.ctype.None?, NoType);
    if c.field == "" { errors := errors + [NoField]; }
    assert errors == When(c.id == "", NoId) + When(c.ctype.None?, NoType) + When(c.field == "", NoField);
    if c.operator.None? { errors := errors + [NoOperator]; }
    assert errors == When(c.id == "", NoId) + When(c.ctype.None?, NoType) + When(c.field == "", NoField)
      + When(c.operator.None?, NoOperator);
    if c.value.None? { errors := errors + [NoValue]; }
    assert errors == When(c.id == "", NoId) + When(c.ctype.None?, NoType) + When(c.field == "", NoField)
      + When(c.operator.None?, NoOperator) + When(c.value.None?, NoValue);
    if c.description == "" { errors := errors + [NoDescription]; }
  }

  // ---------------------------------------------------------------------------
  // Application steps, documents, sources

  /** A step number is valid when present and at least 1 (0 is falsy and below 1 alike). */
  predicate ValidStepNumber(n: Option<int>) {
    n.Some? && n.value >= 1
  }

  function StepErrors(s: ApplicationStep): seq<StepProblem> {
    When(!ValidStepNumber(s.stepNumber), BadStepNumber) + When(s.title == "", NoTitle)
      + When(s.description == "", NoStepDescription) + When(s.estimatedTime == "", NoEstimatedTime)
      + When(s.onlineAvailable && s.onlineUrl == "", NoOnlineUrl)
  }

  predicate StepComplete(s: ApplicationStep) {
    ValidStepNumber(s.stepNumber) && s.title != "" && s.description != "" && s.estimatedTime != ""
      && (s.onlineAvailable ==> s.onlineUrl != "")
  }

  predicate StepDefect(s: ApplicationStep, p: StepProblem) {
    match p
    case BadStepNumber => !ValidStepNumber(s.stepNumber)
    case NoTitle => s.title == ""
    case NoStepDescription => s.description == ""
    case NoEstimatedTime => s.estimatedTime == ""
    case NoOnlineUrl => s.onlineAvailable && s.onlineUrl == ""
  }

  /**
   * One message per defect: a missing or non-positive number is flagged, and so is an
   * online step without a URL.
   */
  lemma StepErrorsExact(s: ApplicationStep, p: StepProblem)
    ensures p in StepErrors(s) <==> StepDefect(s, p)
  {
    var a, b, c := When(!ValidStepNumber(s.stepNumber), BadStepNumber), When(s.title == "", NoTitle),
                   When(s.description == "", NoStepDescription);
    var d, e := When(s.estimatedTime == "", NoEstimatedTime), When(s.onlineAvailable && s.onlineUrl == "", NoOnlineUrl);
    InConcat(a, b, p);
    InConcat(a + b, c, p);
    InConcat(a + b + c, d, p);
    InConcat(a + b + c + d, e, p);
    InWhen(!ValidStepNumber(s.stepNumber), BadStepNumber, p);
    InWhen(s.title == "", NoTitle, p);
    InWhen(s.description == "", NoStepDescription, p);
    InWhen(s.estimatedTime == "", NoEstimatedTime, p);
    InWhen(s.onlineAvailable && s.onlineUrl == "", NoOnlineUrl, p);
  }

  lemma StepErrorsNone(s: ApplicationStep)
    ensures StepErrors(s) == [] <==> StepComplete(s)
  {
  }

  method ValidateApplicationStep(s: ApplicationStep) returns (errors: seq<StepProblem>)
    ensures errors == StepErrors(s)
  {
    errors := [];
    if s.stepNumber.None? || s.stepNumber.value < 1 { errors := errors + [BadStepNumber]; }
    if s.title == "" { errors := errors + [NoTitle]; }
    assert errors == When(!ValidStepNumber(s.stepNumber), BadStepNumber) + When(s.title == "", NoTitle);
    if s.description == "" { errors := errors + [NoStepDescription]; }
    assert errors == When(!ValidStepNumber(s.stepNumber), BadStepNumber) + When(s.title == "", NoTitle)
      + When(s.description == "", NoStepDescription);
    if s.estimatedTime == "" { errors := errors + [NoEstimatedTime]; }
    if s.onlineAvailable && s.onlineUrl == "" { errors := errors + [NoOnlineUrl]; }
  }

  function DocumentErrors(d: RequiredDocument): seq<DocumentProblem> {
    When(d.name == "", NoName) + When(d.description == "", NoDocumentDescription)
  }

  lemma DocumentErrorsExact(d: RequiredDocument)
    ensures DocumentErrors(d) == [] <==> d.name != "" && d.description != ""
    ensures |DocumentErrors(d)| == (if d.name == "" then 1 else 0) + (if d.description == "" then 1 else 0)
  {
  }

  method ValidateDocument(d: RequiredDocument) returns (errors: seq<DocumentProblem>)
    ensures errors == DocumentErrors(d)
  {
    errors := [];
    if d.name == "" { errors := errors + [NoName]; }
    if d.description == "" { errors := errors + [NoDocumentDescription]; }
  }

  predicate SourceDefect(src: DataSource, p: SourceProblem) {
    match p
    case NoSourceName => src.name == ""
    case NoUrl => src.url == ""
    case NoLastAccessed => src.lastAccessed.None?
    case NoOfficialFlag => src.isOfficial.None?
  }

  /** Complete attribution: a name, a URL, an access date and a defined official flag. */
  predicate SourceComplete(src: DataSource) {
    src.name != "" && src.url != "" && src.lastAccessed.Some? && src.isOfficial.Some?
  }

  function DataSourceErrors(src: DataSource): seq<SourceProblem> {
    When(src.name == "", NoSourceName) + When(src.url == "", NoUrl)
      + When(src.lastAccessed.None?, NoLastAccessed) + When(src.isOfficial.None?, NoOfficialFlag)
  }

  lemma DataSourceErrorsExact(src: DataSource, p: SourceProblem)
    ensures p in DataSourceErrors(src) <==> SourceDefect(src, p)
    ensures DataSourceErrors(src) == [] <==> SourceComplete(src)
  {
  }

  method ValidateDataSource(src: DataSource) returns (errors: seq<SourceProblem>)
    ensures errors == DataSourceErrors(src)
  {
    errors := [];
    if src.name == "" { errors := errors + [NoSourceName]; }
    if src.url == "" { errors := errors + [NoUrl]; }
    if src.lastAccessed.None? { errors := errors + [NoLastAccessed]; }
    if src.isOfficial.None? { errors := errors + [NoOfficialFlag]; }
  }

  /** A source is present and its check reports nothing. */
  predicate HasCompleteSourceAttribution(s: Scheme) {
    s.source.Some? && DataSourceErrors(s.source.value) == []
  }

  lemma CompleteAttributionExact(s: Scheme)
    ensures HasCompleteSourceAttribution(s) <==> s.source.Some? && SourceComplete(s.source.value)
  {
  }

  // ---------------------------------------------------------------------------
  // Staleness

  const DayMs := 86400000

  function Abs(x: int): nat {
    if x < 0 then -x else x
  }

  /** Whole days, rounded up: `Math.ceil(ms / 86400000)` for a non-negative `ms`. */
  function CeilDays(ms: nat): (d: nat)
    ensures (d - 1) * DayMs < ms <= d * DayMs
  {
    (ms + DayMs - 1) / DayMs
  }

  /** More whole days (rounded up) have passed between `lastUpdated` and `now` than the threshold. */
  predicate IsSchemeStale(s: Scheme, thresholdDays: int, now: int) {
    CeilDays(Abs(now - s.lastUpdated)) > thresholdDays
  }

  /** Stale exactly when the time difference exceeds the threshold in milliseconds. */
  lemma StaleIff(s: Scheme, thresholdDays: int, now: int)
    ensures IsSchemeStale(s, thresholdDays, now) <==> Abs(now - s.lastUpdated) > thresholdDays * DayMs
  {
    var ms := Abs(now - s.lastUpdated);
    var d := CeilDays(ms);
    if d > thresholdDays {
      assert d * DayMs >= (thresholdDays + 1) * DayMs;
    } else {
      assert (d - 1) * DayMs <= (thresholdDays - 1) * DayMs;
    }
  }

  /** A scheme updated exactly `days` days ago is stale exactly when `days` exceeds the threshold. */
  lemma StaleAfterWholeDays(s: Scheme, thresholdDays: int, now: int, days: nat)
    requires now - s.lastUpdated == days * DayMs
    ensures IsSchemeStale(s, thresholdDays, now) <==> days > thresholdDays
  {
    StaleIff(s, thresholdDays, now);
  }

  /** A scheme updated at this very moment is never stale for a non-negative threshold. */
  lemma FreshNotStale(s: Scheme, thresholdDays: int, now: int)
    requires now == s.lastUpdated && thresholdDays >= 0
    ensures !IsSchemeStale(s, thresholdDays, now)
  {
  }

  function StalePredicate(thresholdDays: int, now: int): Scheme -> bool {
    s => IsSchemeStale(s, thresholdDays, now)
  }

  /** The stale schemes of a list, in list order. */
  function GetStaleSchemes(schemes: seq<Scheme>, thresholdDays: int, now: int): seq<Scheme> {
    Filter(schemes, StalePredicate(thresholdDays, now))
  }

  /** Every stale scheme is returned, only stale schemes are returned, and lists combine. */
  lemma GetStaleSchemesExact(schemes: seq<Scheme>, more: seq<Scheme>, thresholdDays: int, now: int)
    ensures forall i :: 0 <= i < |schemes| && IsSchemeStale(schemes[i], thresholdDays, now) ==>
      schemes[i] in GetStaleSchemes(schemes, thresholdDays, now)
    ensures forall i :: 0 <= i < |GetStaleSchemes(schemes, thresholdDays, now)| ==>
      GetStaleSchemes(schemes, thresholdDays, now)[i] in schemes
      && IsSchemeStale(GetStaleSchemes(schemes, thresholdDays, now)[i], thresholdDays, now)
    ensures GetStaleSchemes(schemes + more, thresholdDays, now)
      == GetStaleSchemes(schemes, thresholdDays, now) + GetStaleSchemes(more, thresholdDays, now)
  {
    FilterAppend(schemes, more, StalePredicate(thresholdDays, now));
  }

  // ---------------------------------------------------------------------------
  // Step numbering

  /** Ascending numeric order with absent numbers last, as the library sort places `undefined`. */
  predicate SlotLe(a: Option<int>, b: Option<int>) {
    b.None? || (a.Some? && a.value <= b.value)
  }

  predicate SortedSlots(s: seq<Option<int>>) {
    forall i, j :: 0 <= i < j < |s| ==> SlotLe(s[i], s[j])
  }

  function InsertSlot(x: Option<int>, s: seq<Option<int>>): seq<Option<int>> {
    if s == [] then [x]
    else if SlotLe(x, s[0]) then [x] + s
    else [s[0]] + InsertSlot(x, s[1..])
  }

  /** Insertion adds exactly one element. */
  lemma {:induction false} InsertSlotPerm(x: Option<int>, s: seq<Option<int>>)
    ensures multiset(InsertSlot(x, s)) == multiset(s) + multiset{x}
  {
    if s != [] && !SlotLe(x, s[0]) {
      InsertSlotPerm(x, s[1..]);
      assert s == [s[0]] + s[1..];
    }
  }

  /** Every element of `s` is at or after `b`. */
  predicate BoundedBelow(b: Option<int>, s: seq<Option<int>>) {
    forall k :: 0 <= k < |s| ==> SlotLe(b, s[k])
  }

  lemma {:induction false} InsertSlotBounded(b: Option<int>, x: Option<int>, s: seq<Option<int>>)
    requires SlotLe(b, x) && BoundedBelow(b, s)
    ensures BoundedBelow(b, InsertSlot(x, s))
  {
    if s != [] && !SlotLe(x, s[0]) {
      InsertSlotBounded(b, x, s[1..]);
    }
  }

  /** Inserting into a sorted list keeps it sorted. */
  lemma {:induction false} InsertSlotSorted(x: Option<int>, s: seq<Option<int>>)
    requires SortedSlots(s)
    ensures SortedSlots(InsertSlot(x, s))
  {
    if s != [] && !SlotLe(x, s[0]) {
      var tail := s[1..];
      InsertSlotSorted(x, tail);
      assert BoundedBelow(s[0], tail) by {
        forall k | 0 <= k < |tail| ensures SlotLe(s[0], tail[k]) {
          assert tail[k] == s[k + 1];
        }
      }
      InsertSlotBounded(s[0], x, tail);
      assert InsertSlot(x, s) == [s[0]] + InsertSlot(x, tail);
    }
  }

  /** The library sort on step numbers: ascending, absent numbers last. */
  function SortSlots(s: seq<Option<int>>): seq<Option<int>> {
    if s == [] then [] else InsertSlot(s[0], SortSlots(s[1..]))
  }

  /** The sort is ascending and rearranges its input. */
  lemma {:induction false} SortSlotsCorrect(s: seq<Option<int>>)
    ensures multiset(SortSlots(s)) == multiset(s)
    ensures SortedSlots(SortSlots(s))
  {
    if s != [] {
      SortSlotsCorrect(s[1..]);
      InsertSlotSorted(s[0], SortSlots(s[1..]));
      InsertSlotPerm(s[0], SortSlots(s[1..]));
      assert s == [s[0]] + s[1..];
    }
  }

  function StepNumbers(steps: seq<ApplicationStep>): (r: seq<Option<int>>)
    ensures |r| == |steps|
    ensures forall k :: 0 <= k < |steps| ==> r[k] == steps[k].stepNumber
  {
    seq(|steps|, k requires 0 <= k < |steps| => steps[k].stepNumber)
  }

  /** 1, 2, …, n. */
  function Counting(n: nat): (r: seq<Option<int>>)
    ensures |r| == n
    ensures forall k :: 0 <= k < n ==> r[k] == Some(k + 1)
  {
    seq(n, k => Some(k + 1))
  }

  /** The i-th of the sorted numbers is i + 1 for every position. */
  predicate NumberedFromOne(sorted: seq<Option<int>>) {
    forall i :: 0 <= i < |sorted| ==> sorted[i] == Some(i + 1)
  }

  /** Two sorted lists with the same elements start with the same element. */
  lemma SortedSameHead(s: seq<Option<int>>, t: seq<Option<int>>)
    requires SortedSlots(s) && SortedSlots(t) && multiset(s) == multiset(t) && s != []
    ensures t != [] && s[0] == t[0]
  {
    assert s[0] in multiset(t);
    var i :| 0 <= i < |t| && t[i] == s[0];
    assert t[0] in multiset(s);
    var j :| 0 <= j < |s| && s[j] == t[0];
    if i > 0 { assert SlotLe(t[0], t[i]); }
    if j > 0 { assert SlotLe(s[0], s[j]); }
  }

  /** Dropping the first element of a non-empty list. */
  lemma DropHead(s: seq<Option<int>>)
    requires s != []
    ensures multiset(s[1..]) == multiset(s) - multiset{s[0]}
    ensures SortedSlots(s) ==> SortedSlots(s[1..])
  {
    assert s == [s[0]] + s[1..];
  }

  /** Two sorted lists with the same elements are the same list. */
  lemma {:induction false} SortedUnique(s: seq<Option<int>>, t: seq<Option<int>>)
    requires SortedSlots(s) && SortedSlots(t) && multiset(s) == multiset(t)
    ensures s == t
    decreases |s|
  {
    if s != [] {
      SortedSameHead(s, t);
      DropHead(s);
      DropHead(t);
      SortedUnique(s[1..], t[1..]);
      assert s == [s[0]] + s[1..];
      assert t == [t[0]] + t[1..];
    } else {
      assert |t| == |multiset(t)| == 0;
    }
  }

  /** The numbering warning is raised exactly when the step numbers are not 1..n in some order. */
  lemma NumberingIff(steps: seq<ApplicationStep>)
    ensures NumberedFromOne(SortSlots(StepNumbers(steps))) <==>
      multiset(StepNumbers(steps)) == multiset(Counting(|steps|))
  {
    var sorted := SortSlots(StepNumbers(steps));
    SortSlotsCorrect(StepNumbers(steps));
    var target := Counting(|steps|);
    assert SortedSlots(target);
    assert |sorted| == |multiset(sorted)| == |multiset(StepNumbers(steps))| == |steps|;
    if NumberedFromOne(sorted) {
      assert forall i :: 0 <= i < |sorted| ==> sorted[i] == target[i];
      assert sorted == target;
    }
    if multiset(StepNumbers(steps)) == multiset(target) {
      SortedUnique(sorted, target);
    }
  }

  /** The first position at which the sorted numbers leave 1, 2, …, if any. */
  method FirstOutOfSequence(sorted: seq<Option<int>>) returns (found: bool)
    ensures found <==> !NumberedFromOne(sorted)
  {
    found := false;
    var i := 0;
    while i < |sorted|
      invariant 0 <= i <= |sorted|
      invariant forall k :: 0 <= k < i ==> sorted[k] == Some(k + 1)
    {
      if sorted[i] != Some(i + 1) {
        found := true;
        return;
      }
      i := i + 1;
    }
  }

  // ---------------------------------------------------------------------------
  // Whole scheme

  /** Only the four optional parts of the record can be absent. */
  predicate FieldAbsent(s: Scheme, f: SchemeField) {
    match f
    case ApplicationProcessField => s.applicationProcess.None?
    case DocumentsField => s.documents.None?
    case ContactInfoField => s.contactInfo.None?
    case SourceField => s.source.None?
    case _ => false
  }

  function FieldAbsentIn(s: Scheme): SchemeField -> bool {
    f => FieldAbsent(s, f)
  }

  function MissingFieldErrors(fields: seq<SchemeField>, s: Scheme): (r: seq<SchemeError>)
    ensures |r| <= |fields|
    ensures forall k :: 0 <= k < |r| ==> r[k].MissingField? && r[k].field in fields && FieldAbsent(s, r[k].field)
    ensures forall k :: 0 <= k < |fields| && FieldAbsent(s, fields[k]) ==> MissingField(fields[k]) in r
  {
    if fields == [] then []
    else
      var last := fields[|fields| - 1];
      MissingFieldErrors(fields[..|fields| - 1], s) + When(FieldAbsent(s, last), MissingField(last))
  }

  /** Criterion messages of position `i`, in order. */
  function TagCriterion(i: nat, ps: seq<CriterionProblem>): (r: seq<SchemeError>)
    ensures |r| == |ps|
    ensures forall k :: 0 <= k < |ps| ==> r[k] == InCriterion(i, ps[k])
  {
    if ps == [] then [] else TagCriterion(i, ps[..|ps| - 1]) + [InCriterion(i, ps[|ps| - 1])]
  }

  function TagStep(i: nat, ps: seq<StepProblem>): (r: seq<SchemeError>)
    ensures |r| == |ps|
    ensures forall k :: 0 <= k < |ps| ==> r[k] == InStep(i, ps[k])
  {
    if ps == [] then [] else TagStep(i, ps[..|ps| - 1]) + [InStep(i, ps[|ps| - 1])]
  }

  function TagDocument(i: nat, ps: seq<DocumentProblem>): (r: seq<SchemeError>)
    ensures |r| == |ps|
    ensures forall k :: 0 <= k < |ps| ==> r[k] == InDocument(i, ps[k])
  {
    if ps == [] then [] else TagDocument(i, ps[..|ps| - 1]) + [InDocument(i, ps[|ps| - 1])]
  }

  function TagSource(ps: seq<SourceProblem>): (r: seq<SchemeError>)
    ensures |r| == |ps|
    ensures forall k :: 0 <= k < |ps| ==> r[k] == InSource(ps[k])
  {
    if ps == [] then [] else TagSource(ps[..|ps| - 1]) + [InSource(ps[|ps| - 1])]
  }

  /** The per-item reports of a list, position by position. */
  function CriteriaReports(cs: seq<Criterion>): (r: seq<seq<CriterionProblem>>)
    ensures |r| == |cs|
    ensures forall i :: 0 <= i < |cs| ==> r[i] == CriterionErrors(cs[i])
  {
    seq(|cs|, i requires 0 <= i < |cs| => CriterionErrors(cs[i]))
  }

  /** The reports of a list, each message tagged with its position. */
  function TagCriteria(reports: seq<seq<CriterionProblem>>): seq<SchemeError> {
    if reports == [] then []
    else TagCriteria(reports[..|reports| - 1]) + TagCriterion(|reports| - 1, reports[|reports| - 1])
  }

  lemma TagCriteriaStep(reports: seq<seq<CriterionProblem>>, i: nat)
    requires i < |reports|
    ensures TagCriteria(reports[..i + 1]) == TagCriteria(reports[..i]) + TagCriterion(i, reports[i])
  {
    assert reports[..i + 1][..i] == reports[..i];
  }

  function CriteriaErrors(cs: seq<Criterion>): seq<SchemeError> {
    TagCriteria(CriteriaReports(cs))
  }

  /** The per-item reports of a list, position by position. */
  function StepsReports(steps: seq<ApplicationStep>): (r: seq<seq<StepProblem>>)
    ensures |r| == |steps|
    ensures forall i :: 0 <= i < |steps| ==> r[i] == StepErrors(steps[i])
  {
    seq(|steps|, i requires 0 <= i < |steps| => StepErrors(steps[i]))
  }

  /** The reports of a list, each message tagged with its position. */
  function TagSteps(reports: seq<seq<StepProblem>>): seq<SchemeError> {
    if reports == [] then []
    else TagSteps(reports[..|reports| - 1]) + TagStep(|reports| - 1, reports[|reports| - 1])
  }

  lemma TagStepsStep(reports: seq<seq<StepProblem>>, i: nat)
    requires i < |reports|
    ensures TagSteps(reports[..i + 1]) == TagSteps(reports[..i]) + TagStep(i, reports[i])
  {
    assert reports[..i + 1][..i] == reports[..i];
  }

  function StepsErrors(steps: seq<ApplicationStep>): seq<SchemeError> {
    TagSteps(StepsReports(steps))
  }

  /** The per-item reports of a list, position by position. */
  function DocumentsReports(docs: seq<RequiredDocument>): (r: seq<seq<DocumentProblem>>)
    ensures |r| == |docs|
    ensures forall i :: 0 <= i < |docs| ==> r[i] == DocumentErrors(docs[i])
  {
    seq(|docs|, i requires 0 <= i < |docs| => DocumentErrors(docs[i]))
  }

  /** The reports of a list, each message tagged with its position. */
  function TagDocuments(reports: seq<seq<DocumentProblem>>): seq<SchemeError> {
    if reports == [] then []
    else TagDocuments(reports[..|reports| - 1]) + TagDocument(|reports| - 1, reports[|reports| - 1])
  }

  lemma TagDocumentsStep(reports: seq<seq<DocumentProblem>>, i: nat)
    requires i < |reports|
    ensures TagDocuments(reports[..i + 1]) == TagDocuments(reports[..i]) + TagDocument(i, reports[i])
  {
    assert reports[..i + 1][..i] == reports[..i];
  }

  function DocumentsErrors(docs: seq<RequiredDocument>): seq<SchemeError> {
    TagDocuments(DocumentsReports(docs))
  }

  function SourceErrors(src: Option<DataSource>): seq<SchemeError> {
    if src.None? then [] else TagSource(DataSourceErrors(src.value))
  }

  function ContactErrors(c: Option<ContactInfo>): seq<SchemeError> {
    When(c.Some? && c.value.department == "", NoDepartment)
  }

  function ProcessErrors(s: Scheme): seq<SchemeError> {
    if s.applicationProcess.Some? then StepsErrors(s.applicationProcess.value) else []
  }

  function DocsErrors(s: Scheme): seq<SchemeError> {
    if s.documents.Some? then DocumentsErrors(s.documents.value) else []
  }

  function TextErrors(s: Scheme): seq<SchemeError> {
    When(s.name != "" && |s.name| < 3, ShortName)
      + When(s.description != "" && |s.description| < 10, ShortDescription)
  }

  /** Every error the scheme check reports before the source and contact checks, in order. */
  function ContentErrors(s: Scheme): seq<SchemeError> {
    MissingFieldErrors(RequiredSchemeFields, s) + TextErrors(s)
      + CriteriaErrors(s.eligibilityCriteria) + ProcessErrors(s) + DocsErrors(s)
  }

  /** Every error the scheme check reports, in order. */
  function SchemeErrors(s: Scheme): seq<SchemeError> {
    ContentErrors(s) + SourceErrors(s.source) + ContactErrors(s.contactInfo)
  }

  predicate StepsOutOfSequence(s: Scheme) {
    s.applicationProcess.Some? && !NumberedFromOne(SortSlots(StepNumbers(s.applicationProcess.value)))
  }

  predicate NoContact(c: ContactInfo) {
    c.phone == "" && c.email == "" && c.websiteUrl == ""
  }

  /** Every warning the scheme check reports at time `now`, in order. */
  function SchemeWarnings(s: Scheme, now: int): seq<SchemeWarning> {
    ProcessWarnings(s) + StatusWarnings(s, now)
  }

  // ---------------------------------------------------------------------------
  // Validator methods

  method CheckRequiredFields(s: Scheme) returns (errors: seq<SchemeError>)
    ensures errors == MissingFieldErrors(RequiredSchemeFields, s)
  {
    errors := [];
    for i := 0 to |RequiredSchemeFields|
      invariant errors == MissingFieldErrors(RequiredSchemeFields[..i], s)
    {
      var field := RequiredSchemeFields[i];
      assert RequiredSchemeFields[..i + 1][..i] == RequiredSchemeFields[..i];
      if FieldAbsent(s, field) {
        errors := errors + [MissingField(field)];
      }
    }
    assert RequiredSchemeFields[..|RequiredSchemeFields|] == RequiredSchemeFields;
  }

  /** Pushes each message of position `index`, numbered from 1 in its text. */
  method TagCriteriaProblems(index: nat, problems: seq<CriterionProblem>) returns (tagged: seq<SchemeError>)
    ensures tagged == TagCriterion(index, problems)
  {
    tagged := [];
    for k := 0 to |problems|
      invariant tagged == TagCriterion(index, problems[..k])
    {
      assert problems[..k + 1][..k] == problems[..k];
      tagged := tagged + [InCriterion(index, problems[k])];
    }
    assert problems[..|problems|] == problems;
  }

  method CheckCriteria(cs: seq<Criterion>) returns (errors: seq<SchemeError>)
    ensures errors == CriteriaErrors(cs)
  {
    errors := [];
    ghost var reports := CriteriaReports(cs);
    for i := 0 to |cs|
      invariant errors == TagCriteria(reports[..i])
    {
      var problems := ValidateCriterion(cs[i]);
      assert problems == reports[i];
      var tagged := TagCriteriaProblems(i, problems);
      TagCriteriaStep(reports, i);
      errors := errors + tagged;
    }
    assert reports[..|cs|] == reports;
  }

  /** Pushes each message of position `index`, numbered from 1 in its text. */
  method TagStepsProblems(index: nat, problems: seq<StepProblem>) returns (tagged: seq<SchemeError>)
    ensures tagged == TagStep(index, problems)
  {
    tagged := [];
    for k := 0 to |problems|
      invariant tagged == TagStep(index, problems[..k])
    {
      assert problems[..k + 1][..k] == problems[..k];
      tagged := tagged + [InStep(index, problems[k])];
    }
    assert problems[..|problems|] == problems;
  }

  method CheckSteps(steps: seq<ApplicationStep>) returns (errors: seq<SchemeError>)
    ensures errors == StepsErrors(steps)
  {
    errors := [];
    ghost var reports := StepsReports(steps);
    for i := 0 to |steps|
      invariant errors == TagSteps(reports[..i])
    {
      var problems := ValidateApplicationStep(steps[i]);
      assert problems == reports[i];
      var tagged := TagStepsProblems(i, problems);
      TagStepsStep(reports, i);
      errors := errors + tagged;
    }
    assert reports[..|steps|] == reports;
  }

  /** Pushes each message of position `index`, numbered from 1 in its text. */
  method TagDocumentsProblems(index: nat, problems: seq<DocumentProblem>) returns (tagged: seq<SchemeError>)
    ensures tagged == TagDocument(index, problems)
  {
    tagged := [];
    for k := 0 to |problems|
      invariant tagged == TagDocument(index, problems[..k])
    {
      assert problems[..k + 1][..k] == problems[..k];
      tagged := tagged + [InDocument(index, problems[k])];
    }
    assert problems[..|problems|] == problems;
  }

  method CheckDocuments(docs: seq<RequiredDocument>) returns (errors: seq<SchemeError>)
    ensures errors == DocumentsErrors(docs)
  {
    errors := [];
    ghost var reports := DocumentsReports(docs);
    for i := 0 to |docs|
      invariant errors == TagDocuments(reports[..i])
    {
      var problems := ValidateDocument(docs[i]);
      assert problems == reports[i];
      var tagged := TagDocumentsProblems(i, problems);
      TagDocumentsStep(reports, i);
      errors := errors + tagged;
    }
    assert reports[..|docs|] == reports;
  }

  method CheckSource(src: Option<DataSource>) returns (errors: seq<SchemeError>)
    ensures errors == SourceErrors(src)
  {
    errors := [];
    if src.Some? {
      var problems := ValidateDataSource(src.value);
      for k := 0 to |problems|
        invariant errors == TagSource(problems[..k])
      {
        assert problems[..k + 1][..k] == problems[..k];
        errors := errors + [InSource(problems[k])];
      }
      assert problems[..|problems|] == problems;
    }
  }

  /** The warnings about the scheme's parts: criteria, steps and their numbering. */
  function ProcessWarnings(s: Scheme): seq<SchemeWarning> {
    When(|s.eligibilityCriteria| == 0, NoCriteria)
      + When(s.applicationProcess.Some? && |s.applicationProcess.value| == 0, NoSteps)
      + When(StepsOutOfSequence(s), NotSequential)
  }

  /** The warnings about contact, benefits, openness and the deadline at time `now`. */
  function StatusWarnings(s: Scheme, now: int): seq<SchemeWarning> {
    When(s.contactInfo.Some? && NoContact(s.contactInfo.value), NoContactMethod)
      + When(|s.benefits| == 0, NoBenefits)
      + When(s.isActive && !s.isOpenForApplication, NotOpen)
      + When(s.applicationDeadline.Some? && s.applicationDeadline.value < now, DeadlinePassed)
  }

  method CheckProcess(s: Scheme) returns (warnings: seq<SchemeWarning>)
    ensures warnings == ProcessWarnings(s)
  {
    warnings := [];
    if |s.eligibilityCriteria| == 0 { warnings := warnings + [NoCriteria]; }
    if s.applicationProcess.Some? {
      if |s.applicationProcess.value| == 0 { warnings := warnings + [NoSteps]; }
      var sorted := SortSlots(StepNumbers(s.applicationProcess.value));
      var outOfSequence := FirstOutOfSequence(sorted);
      if outOfSequence { warnings := warnings + [NotSequential]; }
    }
  }

  method CheckStatus(s: Scheme, now: int) returns (warnings: seq<SchemeWarning>)
    ensures warnings == StatusWarnings(s, now)
  {
    warnings := [];
    if s.contactInfo.Some? {
      var c := s.contactInfo.value;
      if c.phone == "" && c.email == "" && c.websiteUrl == "" { warnings := warnings + [NoContactMethod]; }
    }
    if |s.benefits| == 0 { warnings := warnings + [NoBenefits]; }
    assert warnings == When(s.contactInfo.Some? && NoContact(s.contactInfo.value), NoContactMethod)
      + When(|s.benefits| == 0, NoBenefits);
    if s.isActive && !s.isOpenForApplication { warnings := warnings + [NotOpen]; }
    if s.applicationDeadline.Some? && s.applicationDeadline.value < now { warnings := warnings + [DeadlinePassed]; }
  }

  method CheckContent(s: Scheme) returns (errors: seq<SchemeError>)
    ensures errors == ContentErrors(s)
  {
    errors := CheckRequiredFields(s);
    if s.name != "" && |s.name| < 3 { errors := errors + [ShortName]; }
    if s.description != "" && |s.description| < 10 { errors := errors + [ShortDescription]; }
    assert errors == MissingFieldErrors(RequiredSchemeFields, s) + TextErrors(s);
    var criteriaErrors := CheckCriteria(s.eligibilityCriteria);
    errors := errors + criteriaErrors;
    var stepErrors: seq<SchemeError> := [];
    if s.applicationProcess.Some? {
      stepErrors := CheckSteps(s.applicationProcess.value);
    }
    errors := errors + stepErrors;
    var documentErrors: seq<SchemeError> := [];
    if s.documents.Some? {
      documentErrors := CheckDocuments(s.documents.value);
    }
    errors := errors + documentErrors;
  }

  /** The scheme validator; `now` is the current time in milliseconds. */
  method ValidateScheme(s: Scheme, now: int) returns (r: SchemeReport)
    ensures r.errors == SchemeErrors(s)
    ensures r.warnings == SchemeWarnings(s, now)
    ensures r.isValid <==> r.errors == []
  {
    var errors := CheckContent(s);
    var sourceErrors := CheckSource(s.source);
    errors := errors + sourceErrors;
    if s.contactInfo.Some? && s.contactInfo.value.department == "" {
      errors := errors + [NoDepartment];
    }
    var warnings := CheckProcess(s);
    var more := CheckStatus(s, now);
    warnings := warnings + more;
    r := SchemeReport(|errors| == 0, errors, warnings);
  }

  /** Whether the scheme check at `now` reports no error. */
  predicate SchemeValid(s: Scheme) {
    SchemeErrors(s) == []
  }

  // ---------------------------------------------------------------------------
  // Properties

  lemma InMiddle(a: seq<SchemeError>, b: seq<SchemeError>, c: seq<SchemeError>, x: SchemeError)
    requires x in b
    ensures x in a + b + c
  {
  }

  lemma SourceErrorListed(src: DataSource, p: SourceProblem)
    requires SourceDefect(src, p)
    ensures InSource(p) in SourceErrors(Some(src))
  {
    DataSourceErrorsExact(src, p);
    var ps := DataSourceErrors(src);
    var k :| 0 <= k < |ps| && ps[k] == p;
    assert SourceErrors(Some(src))[k] == InSource(p);
  }

  /** Each source defect is reported, and its text starts with `Source: `. */
  lemma SourceErrorsPrefixed(s: Scheme, p: SourceProblem)
    requires s.source.Some? && SourceDefect(s.source.value, p)
    ensures InSource(p) in SchemeErrors(s)
    ensures InSource(p).Text()[..8] == "Source: "
  {
    SourceErrorListed(s.source.value, p);
    InMiddle(ContentErrors(s), SourceErrors(s.source), ContactErrors(s.contactInfo), InSource(p));
  }

  /** Every message of the item at position i reappears tagged with i. */
  lemma {:induction false} TagCriteriaHas(reports: seq<seq<CriterionProblem>>, i: nat, k: nat)
    requires i < |reports| && k < |reports[i]|
    ensures InCriterion(i, reports[i][k]) in TagCriteria(reports)
  {
    var init := reports[..|reports| - 1];
    if i < |reports| - 1 {
      assert init[i] == reports[i];
      TagCriteriaHas(init, i, k);
    } else {
      assert TagCriterion(i, reports[i])[k] == InCriterion(i, reports[i][k]);
    }
  }

  /** A criterion defect at position i is reported, numbered i + 1. */
  lemma CriterionErrorReported(cs: seq<Criterion>, i: nat, p: CriterionProblem)
    requires i < |cs| && CriterionDefect(cs[i], p)
    ensures InCriterion(i, p) in CriteriaErrors(cs)
  {
    CriterionErrorsExact(cs[i], p);
    var ps := CriterionErrors(cs[i]);
    var k :| 0 <= k < |ps| && ps[k] == p;
    TagCriteriaHas(CriteriaReports(cs), i, k);
  }

  lemma {:induction false} TagCriteriaEmpty(reports: seq<seq<CriterionProblem>>)
    ensures TagCriteria(reports) == [] <==> forall i :: 0 <= i < |reports| ==> reports[i] == []
  {
    if reports != [] {
      var init := reports[..|reports| - 1];
      TagCriteriaEmpty(init);
      assert forall i :: 0 <= i < |init| ==> init[i] == reports[i];
    }
  }

  /** A list reports nothing exactly when no item reports anything. */
  lemma CriteriaErrorsEmpty(cs: seq<Criterion>)
    ensures CriteriaErrors(cs) == [] <==> forall i :: 0 <= i < |cs| ==> CriterionErrors(cs[i]) == []
  {
    TagCriteriaEmpty(CriteriaReports(cs));
  }

  lemma {:induction false} TagStepsEmpty(reports: seq<seq<StepProblem>>)
    ensures TagSteps(reports) == [] <==> forall i :: 0 <= i < |reports| ==> reports[i] == []
  {
    if reports != [] {
      var init := reports[..|reports| - 1];
      TagStepsEmpty(init);
      assert forall i :: 0 <= i < |init| ==> init[i] == reports[i];
    }
  }

  /** A list reports nothing exactly when no item reports anything. */
  lemma StepsErrorsEmpty(steps: seq<ApplicationStep>)
    ensures StepsErrors(steps) == [] <==> forall i :: 0 <= i < |steps| ==> StepErrors(steps[i]) == []
  {
    TagStepsEmpty(StepsReports(steps));
  }

  lemma {:induction false} TagDocumentsEmpty(reports: seq<seq<DocumentProblem>>)
    ensures TagDocuments(reports) == [] <==> forall i :: 0 <= i < |reports| ==> reports[i] == []
  {
    if reports != [] {
      var init := reports[..|reports| - 1];
      TagDocumentsEmpty(init);
      assert forall i :: 0 <= i < |init| ==> init[i] == reports[i];
    }
  }

  /** A list reports nothing exactly when no item reports anything. */
  lemma DocumentsErrorsEmpty(docs: seq<RequiredDocument>)
    ensures DocumentsErrors(docs) == [] <==> forall i :: 0 <= i < |docs| ==> DocumentErrors(docs[i]) == []
  {
    TagDocumentsEmpty(DocumentsReports(docs));
  }

  /** No message exactly when none of the listed fields is absent. */
  lemma MissingFieldsNone(fields: seq<SchemeField>, s: Scheme)
    ensures MissingFieldErrors(fields, s) == [] <==> forall k :: 0 <= k < |fields| ==> !FieldAbsent(s, fields[k])
  {
    var r := MissingFieldErrors(fields, s);
    if r != [] {
      assert FieldAbsent(s, r[0].field) && r[0].field in fields;
    }
  }

  lemma MissingFieldsEmpty(s: Scheme)
    ensures MissingFieldErrors(RequiredSchemeFields, s) == [] <==>
      s.applicationProcess.Some? && s.documents.Some? && s.contactInfo.Some? && s.source.Some?
  {
    MissingFieldsNone(RequiredSchemeFields, s);
    assert RequiredSchemeFields[9] == ApplicationProcessField;
    assert RequiredSchemeFields[10] == DocumentsField;
    assert RequiredSchemeFields[11] == ContactInfoField;
    assert RequiredSchemeFields[12] == SourceField;
    if s.applicationProcess.Some? && s.documents.Some? && s.contactInfo.Some? && s.source.Some? {
      assert forall f :: !FieldAbsent(s, f);
    }
  }

  lemma SchemeErrorsEmpty(s: Scheme)
    ensures SchemeErrors(s) == [] <==>
      && MissingFieldErrors(RequiredSchemeFields, s) == [] && TextErrors(s) == []
      && CriteriaErrors(s.eligibilityCriteria) == [] && ProcessErrors(s) == [] && DocsErrors(s) == []
      && SourceErrors(s.source) == [] && ContactErrors(s.contactInfo) == []
  {
  }

  lemma SourceErrorsEmpty(src: Option<DataSource>)
    ensures src.Some? ==> (SourceErrors(src) == [] <==> SourceComplete(src.value))
  {
    if src.Some? {
      DataSourceErrorsExact(src.value, NoUrl);
    }
  }

  lemma CriteriaComplete(cs: seq<Criterion>)
    ensures CriteriaErrors(cs) == [] <==> forall i :: 0 <= i < |cs| ==> CriterionComplete(cs[i])
  {
    CriteriaErrorsEmpty(cs);
    forall i | 0 <= i < |cs|
      ensures CriterionErrors(cs[i]) == [] <==> CriterionComplete(cs[i])
    {
      CriterionErrorsNone(cs[i]);
    }
  }

  lemma StepsComplete(steps: seq<ApplicationStep>)
    ensures StepsErrors(steps) == [] <==> forall i :: 0 <= i < |steps| ==> StepComplete(steps[i])
  {
    StepsErrorsEmpty(steps);
    forall i | 0 <= i < |steps|
      ensures StepErrors(steps[i]) == [] <==> StepComplete(steps[i])
    {
      StepErrorsNone(steps[i]);
    }
  }

  lemma DocumentsComplete(docs: seq<RequiredDocument>)
    ensures DocumentsErrors(docs) == [] <==> forall i :: 0 <= i < |docs| ==> docs[i].name != "" && docs[i].description != ""
  {
    DocumentsErrorsEmpty(docs);
    forall i | 0 <= i < |docs|
      ensures DocumentErrors(docs[i]) == [] <==> docs[i].name != "" && docs[i].description != ""
    {
      DocumentErrorsExact(docs[i]);
    }
  }

  /**
   * A scheme is valid exactly when its four optional parts are present, a given name has at
   * least 3 and a given description at least 10 characters, every criterion, step and
   * document is complete, the source is complete and the contact lists a department.
   */
  lemma SchemeValidIff(s: Scheme)
    ensures SchemeValid(s) <==>
      && s.applicationProcess.Some? && s.documents.Some? && s.contactInfo.Some? && s.source.Some?
      && (s.name == "" || |s.name| >= 3)
      && (s.description == "" || |s.description| >= 10)
      && (forall i :: 0 <= i < |s.eligibilityCriteria| ==> CriterionComplete(s.eligibilityCriteria[i]))
      && (forall i :: 0 <= i < |s.applicationProcess.value| ==> StepComplete(s.applicationProcess.value[i]))
      && (forall i :: 0 <= i < |s.documents.value| ==>
            s.documents.value[i].name != "" && s.documents.value[i].description != "")
      && SourceComplete(s.source.value)
      && s.contactInfo.value.department != ""
  {
    SchemeErrorsEmpty(s);
    MissingFieldsEmpty(s);
    CriteriaComplete(s.eligibilityCriteria);
    if s.applicationProcess.Some? {
      StepsComplete(s.applicationProcess.value);
    }
    if s.documents.Some? {
      DocumentsComplete(s.documents.value);
    }
    SourceErrorsEmpty(s.source);
  }

  /** A valid scheme carries complete source attribution. */
  lemma ValidHasCompleteSource(s: Scheme)
    requires SchemeValid(s)
    ensures HasCompleteSourceAttribution(s)
  {
    SchemeValidIff(s);
    CompleteAttributionExact(s);
  }

  lemma WarningParts(a: seq<SchemeWarning>, b: seq<SchemeWarning>, x: SchemeWarning)
    requires x !in b
    ensures multiset(a + b)[x] == multiset(a)[x]
    ensures x in a + b <==> x in a
  {
    assert multiset(a + b) == multiset(a) + multiset(b);
  }

  lemma NumberingInProcess(s: Scheme)
    ensures multiset(ProcessWarnings(s))[NotSequential] <= 1
    ensures NotSequential in ProcessWarnings(s) <==> StepsOutOfSequence(s)
  {
    var a := When(|s.eligibilityCriteria| == 0, NoCriteria)
      + When(s.applicationProcess.Some? && |s.applicationProcess.value| == 0, NoSteps);
    assert NotSequential !in a;
    assert multiset(a)[NotSequential] == 0;
  }

  lemma NoNumberingInStatus(s: Scheme, now: int)
    ensures NotSequential !in StatusWarnings(s, now)
  {
  }

  /** The numbering warning appears at most once, and exactly when the numbers are out of sequence. */
  lemma NumberingWarningOnce(s: Scheme, now: int)
    ensures multiset(SchemeWarnings(s, now))[NotSequential] <= 1
    ensures NotSequential in SchemeWarnings(s, now) <==> StepsOutOfSequence(s)
  {
    var a, b := ProcessWarnings(s), StatusWarnings(s, now);
    NumberingInProcess(s);
    NoNumberingInStatus(s, now);
    WarningParts(a, b, NotSequential);
  }

  /** The steps are out of sequence exactly when their numbers are not 1..n in some order. */
  lemma OutOfSequenceIff(s: Scheme)
    ensures StepsOutOfSequence(s) <==>
      s.applicationProcess.Some?
      && multiset(StepNumbers(s.applicationProcess.value)) != multiset(Counting(|s.applicationProcess.value|))
  {
    if s.applicationProcess.Some? {
      NumberingIff(s.applicationProcess.value);
    }
  }
}
