/**
 Filters on workflow runs (api/db/filters.py): a list of filter items compiles to a list of SQL
 conditions, whose conjunction is evaluated in SQL's three-valued logic.
 */
module RunFilters {
  import opened Wrappers

  // ---------- Filter items and rows ----------

  /** The attribute names that map to a field; every other name is `OtherAttribute`. */
  datatype Attribute =
    | DateRange | DispositionCode | Duration | Status | TokenUsage | RunId | WorkflowId | CallTags | PhoneNumber
    | OtherAttribute

  datatype Kind = ByNumber | ByDates | BySelection | ByRadio | ByTags | ByText | ByRange | OtherKind

  /** The value dictionary of an item; None, [] and "" stand for missing or empty entries. */
  datatype Item = Item(
    attribute: Attribute, kind: Kind, number: Option<int>, text: string, since: Option<int>, until: Option<int>,
    codes: seq<string>, status: string, min: Option<int>, max: Option<int>)

  /** A JSON text cast to an integer: missing, a number, or text the cast rejects. */
  datatype Cell = Absent | Number(n: int) | NotANumber

  datatype Tags = NoTags | TagList(tags: set<string>) | OtherJson

  /** The columns and JSON entries of a run that filters read. */
  datatype Row = Row(
    id: int, workflowId: int, createdAt: Option<int>, isCompleted: Option<bool>, disposition: Option<string>,
    tags: Tags, phone: Option<string>, duration: Cell, cost: Cell)

  // ---------- Compilation ----------

  datatype Condition =
    | IdIs(id: int)
    | WorkflowIs(workflow: int)
    | CreatedSince(at: int)
    | CreatedUntil(at: int)
    | DispositionIn(codes: seq<string>)
    | CompletedIs(flag: bool)
    | TagsContain(codes: seq<string>)
    | PhoneLike(pattern: string)
    | DurationAtLeast(n: int)
    | DurationAtMost(n: int)
    | CostAtLeast(n: int)
    | CostAtMost(n: int)

  predicate IsSpace(c: char) {
    c == ' ' || c == '\t' || c == '\n' || c == '\r'
  }

  function Strip(s: string): string {
    if s == "" then s
    else if IsSpace(s[0]) then Strip(s[1..])
    else if IsSpace(s[|s| - 1]) then Strip(s[..|s| - 1])
    else s
  }

  /** White space only. */
  predicate Blank(s: string) {
    forall k :: 0 <= k < |s| ==> s[k] in {' ', '\t', '\n', '\r'}
  }

  /** `contains(phone)` without escaping. */
  function ContainsPattern(phone: string): string {
    "%" + phone + "%"
  }

  /** The condition an item adds first, if any. */
  function First(i: Item): Option<Condition> {
    match i.attribute
    case RunId => if i.kind == ByNumber && i.number.Some? then Some(IdIs(i.number.value)) else None
    case WorkflowId => if i.kind == ByNumber && i.number.Some? then Some(WorkflowIs(i.number.value)) else None
    case DateRange => if i.kind == ByDates && i.since.Some? then Some(CreatedSince(i.since.value)) else None
    case DispositionCode => if i.kind == BySelection && i.codes != [] then Some(DispositionIn(i.codes)) else None
    case Status =>
      if i.kind != ByRadio then None
      else if i.status == "completed" then Some(CompletedIs(true))
      else if i.status == "in_progress" then Some(CompletedIs(false))
      else None
    case CallTags =>
      if (i.kind == ByTags || i.kind == BySelection) && i.codes != [] then Some(TagsContain(i.codes)) else None
    case PhoneNumber =>
      if i.kind == ByText && Strip(i.text) != "" then Some(PhoneLike(ContainsPattern(Strip(i.text)))) else None
    case Duration => if i.kind == ByRange && i.min.Some? then Some(DurationAtLeast(i.min.value)) else None
    case TokenUsage => if i.kind == ByRange && i.min.Some? then Some(CostAtLeast(i.min.value)) else None
    case OtherAttribute => None
  }

  /** Ranges add a second condition for their upper end. */
  function Second(i: Item): Option<Condition> {
    match i.attribute
    case DateRange => if i.kind == ByDates && i.until.Some? then Some(CreatedUntil(i.until.value)) else None
    case Duration => if i.kind == ByRange && i.max.Some? then Some(DurationAtMost(i.max.value)) else None
    case TokenUsage => if i.kind == ByRange && i.max.Some? then Some(CostAtMost(i.max.value)) else None
    case _ => None
  }

  function AsSeq(c: Option<Condition>): seq<Condition> {
    if c.Some? then [c.value] else []
  }

  function CompileItem(i: Item): seq<Condition> {
    AsSeq(First(i)) + AsSeq(Second(i))
  }

  function FlatMap<T>(f: T -> seq<Condition>, xs: seq<T>): seq<Condition> {
    if xs == [] then [] else FlatMap(f, xs[..|xs| - 1]) + f(xs[|xs| - 1])
  }

  function Compile(items: seq<Item>): seq<Condition> {
    FlatMap(CompileItem, items)
  }

  // ---------- SQL evaluation ----------

  /** `RejectOrError`: a failing condition beside one that is not true. The order of evaluation is not
      specified, so the row may be rejected before the failing condition is reached. */
  datatype Truth = True | False | Unknown | Error | RejectOrError

  function And(a: Truth, b: Truth): Truth {
    if a == RejectOrError || b == RejectOrError then RejectOrError
    else if a == Error then (if b == True || b == Error then Error else RejectOrError)
    else if b == Error then (if a == True then Error else RejectOrError)
    else if a == False || b == False then False
    else if a == Unknown || b == Unknown then Unknown
    else True
  }

  function Known(b: bool): Truth {
    if b then True else False
  }

  function CompareCell(c: Cell, test: int -> bool): Truth {
    match c
    case Absent => Unknown
    case Number(n) => Known(test(n))
    case NotANumber => Error
  }

  /** LIKE with `%`, `_` and backslash escapes. */
  predicate Like(text: string, pattern: string)
    decreases |text| + |pattern|
  {
    if pattern == "" then text == ""
    else if pattern[0] == '%' then Like(text, pattern[1..]) || (text != "" && Like(text[1..], pattern))
    else if pattern[0] == '_' then text != "" && Like(text[1..], pattern[1..])
    else if pattern[0] == '\\' then |pattern| > 1 && text != "" && text[0] == pattern[1]
      && Like(text[1..], pattern[2..])
    else text != "" && text[0] == pattern[0] && Like(text[1..], pattern[1..])
  }

  function Eval(c: Condition, r: Row): Truth {
    match c
    case IdIs(id) => Known(r.id == id)
    case WorkflowIs(w) => Known(r.workflowId == w)
    case CreatedSince(at) => if r.createdAt.None? then Unknown else Known(r.createdAt.value >= at)
    case CreatedUntil(at) => if r.createdAt.None? then Unknown else Known(r.createdAt.value <= at)
    case DispositionIn(codes) => if r.disposition.None? then Unknown else Known(r.disposition.value in codes)
    case CompletedIs(flag) => if r.isCompleted.None? then Unknown else Known(r.isCompleted.value == flag)
    case TagsContain(codes) =>
      (match r.tags
       case NoTags => Unknown
       case TagList(tags) => Known(forall c :: c in codes ==> c in tags)
       case OtherJson => False)
    case PhoneLike(pattern) => if r.phone.None? then Unknown else Known(Like(r.phone.value, pattern))
    case DurationAtLeast(n) => CompareCell(r.duration, d => d >= n)
    case DurationAtMost(n) => CompareCell(r.duration, d => d <= n)
    case CostAtLeast(n) => CompareCell(r.cost, d => d >= n)
    case CostAtMost(n) => CompareCell(r.cost, d => d <= n)
  }

  /** The conjunction of all conditions; without conditions there is no WHERE clause. */
  function Where(conditions: seq<Condition>, r: Row): Truth {
    if conditions == [] then True
    else And(Where(conditions[..|conditions| - 1], r), Eval(conditions[|conditions| - 1], r))
  }

  // ---------- What an item asks for ----------

  predicate InRange(c: Cell, min: Option<int>, max: Option<int>) {
    (min.Some? ==> c.Number? && min.value <= c.n) && (max.Some? ==> c.Number? && c.n <= max.value)
  }

  predicate Selects(i: Item) {
    i.codes != []
  }

  /** The item's own reading of a row; items of no recognised shape ask for nothing. */
  predicate Asks(i: Item, r: Row) {
    match i.attribute
    case RunId => i.kind == ByNumber && i.number.Some? ==> r.id == i.number.value
    case WorkflowId => i.kind == ByNumber && i.number.Some? ==> r.workflowId == i.number.value
    case DateRange =>
      i.kind == ByDates ==>
        && (i.since.Some? ==> r.createdAt.Some? && i.since.value <= r.createdAt.value)
        && (i.until.Some? ==> r.createdAt.Some? && r.createdAt.value <= i.until.value)
    case DispositionCode => i.kind == BySelection && Selects(i) ==>
      r.disposition.Some? && r.disposition.value in i.codes
    case Status =>
      i.kind == ByRadio ==>
        && (i.status == "completed" ==> r.isCompleted == Some(true))
        && (i.status == "in_progress" ==> r.isCompleted == Some(false))
    case CallTags =>
      (i.kind == ByTags || i.kind == BySelection) && Selects(i) ==>
        r.tags.TagList? && forall c :: c in i.codes ==> c in r.tags.tags
    case PhoneNumber =>
      i.kind == ByText && Strip(i.text) != "" ==> r.phone.Some? && Like(r.phone.value, ContainsPattern(Strip(i.text)))
    case Duration => i.kind == ByRange ==> InRange(r.duration, i.min, i.max)
    case TokenUsage => i.kind == ByRange ==> InRange(r.cost, i.min, i.max)
    case OtherAttribute => true
  }

  /** A bound on a number the row stores as something else makes the whole query fail. */
  predicate Breaks(i: Item, r: Row) {
    && i.kind == ByRange && (i.min.Some? || i.max.Some?)
    && ((i.attribute == Duration && r.duration.NotANumber?) || (i.attribute == TokenUsage && r.cost.NotANumber?))
  }

  /** The shapes that are recognised; all others are skipped. */
  predicate Recognised(i: Item) {
    (i.attribute, i.kind) in {
      (RunId, ByNumber), (WorkflowId, ByNumber), (DateRange, ByDates), (DispositionCode, BySelection),
      (Status, ByRadio), (CallTags, ByTags), (CallTags, BySelection), (PhoneNumber, ByText), (Duration, ByRange),
      (TokenUsage, ByRange)}
  }

  lemma UnrecognisedIsNeutral(i: Item)
    requires !Recognised(i)
    ensures CompileItem(i) == []
    ensures forall r :: Asks(i, r) && !Breaks(i, r)
  {
  }

  lemma {:induction false} WhereConcat(a: seq<Condition>, b: seq<Condition>, r: Row)
    ensures Where(a + b, r) == And(Where(a, r), Where(b, r))
    decreases |b|
  {
    if b == [] {
      assert a + b == a;
    } else {
      assert (a + b)[..|a + b| - 1] == a + b[..|b| - 1];
      WhereConcat(a, b[..|b| - 1], r);
    }
  }

  function EvalOptional(c: Option<Condition>, r: Row): Truth {
    if c.Some? then Eval(c.value, r) else True
  }

  lemma WhereOptional(c: Option<Condition>, r: Row)
    ensures Where(AsSeq(c), r) == EvalOptional(c, r)
  {
    if c.Some? {
      assert AsSeq(c)[..0] == [];
      assert Where(AsSeq(c), r) == And(Where([], r), Eval(c.value, r));
    }
  }

  lemma WhereItem(i: Item, r: Row)
    ensures Where(CompileItem(i), r) == And(EvalOptional(First(i), r), EvalOptional(Second(i), r))
  {
    WhereOptional(First(i), r);
    WhereOptional(Second(i), r);
    WhereConcat(AsSeq(First(i)), AsSeq(Second(i)), r);
  }

  function ItemTruth(i: Item, r: Row): Truth {
    And(EvalOptional(First(i), r), EvalOptional(Second(i), r))
  }

  ghost predicate Faithful(i: Item, r: Row) {
    && (ItemTruth(i, r) == True <==> Asks(i, r))
    && (ItemTruth(i, r) == Error <==> Breaks(i, r))
    && ItemTruth(i, r) != RejectOrError
    && (Breaks(i, r) ==> !Asks(i, r))
  }

  lemma DatesAreFaithful(i: Item, r: Row)
    requires i.attribute == DateRange
    ensures Faithful(i, r)
  {
  }

  lemma DurationIsFaithful(i: Item, r: Row)
    requires i.attribute == Duration
    ensures Faithful(i, r)
  {
  }

  lemma CostIsFaithful(i: Item, r: Row)
    requires i.attribute == TokenUsage
    ensures Faithful(i, r)
  {
  }

  lemma SinglesAreFaithful(i: Item, r: Row)
    requires i.attribute !in {DateRange, Duration, TokenUsage}
    ensures Faithful(i, r)
  {
  }

  /** One item's conditions hold exactly on the rows it asks for, and fail exactly on those it breaks on,
      in any order of evaluation. */
  lemma ItemMeans(i: Item, r: Row)
    ensures Where(CompileItem(i), r) == True <==> Asks(i, r)
    ensures Where(CompileItem(i), r) == Error <==> Breaks(i, r)
    ensures Where(CompileItem(i), r) != RejectOrError
    ensures Breaks(i, r) ==> !Asks(i, r)
  {
    WhereItem(i, r);
    match i.attribute
    case DateRange => DatesAreFaithful(i, r);
    case Duration => DurationIsFaithful(i, r);
    case TokenUsage => CostIsFaithful(i, r);
    case _ => SinglesAreFaithful(i, r);
  }

  predicate MayFail(t: Truth) {
    t == Error || t == RejectOrError
  }

  ghost predicate All<T>(p: T -> bool, xs: seq<T>) {
    forall k :: 0 <= k < |xs| ==> p(xs[k])
  }

  ghost predicate Any<T>(p: T -> bool, xs: seq<T>) {
    exists k :: 0 <= k < |xs| && p(xs[k])
  }

  lemma LastOf<T>(p: T -> bool, xs: seq<T>)
    requires xs != []
    ensures All(p, xs) <==> All(p, xs[..|xs| - 1]) && p(xs[|xs| - 1])
    ensures Any(p, xs) <==> Any(p, xs[..|xs| - 1]) || p(xs[|xs| - 1])
  {
    var front := xs[..|xs| - 1];
    assert forall k :: 0 <= k < |front| ==> front[k] == xs[k];
    if k :| 0 <= k < |front| && p(front[k]) {
      assert p(xs[k]);
    }
  }

  /** Conjoining conditions that are true where `asks` and fail where `breaks`, and are in no other case
      unspecified. */
  lemma {:induction false} ConjunctionMeans<T>(f: T -> seq<Condition>, xs: seq<T>, r: Row, asks: T -> bool,
                                               breaks: T -> bool)
    requires forall x :: && (Where(f(x), r) == True <==> asks(x)) && (Where(f(x), r) == Error <==> breaks(x))
                         && Where(f(x), r) != RejectOrError
    ensures Where(FlatMap(f, xs), r) == True <==> All(asks, xs)
    ensures MayFail(Where(FlatMap(f, xs), r)) <==> Any(breaks, xs)
    ensures Where(FlatMap(f, xs), r) == Error <==> Any(breaks, xs) && All(x => asks(x) || breaks(x), xs)
    decreases |xs|
  {
    if xs != [] {
      var front, last := xs[..|xs| - 1], xs[|xs| - 1];
      ConjunctionMeans(f, front, r, asks, breaks);
      WhereConcat(FlatMap(f, front), f(last), r);
      LastOf(asks, xs);
      LastOf(breaks, xs);
      LastOf(x => asks(x) || breaks(x), xs);
    }
  }

  /** The compiled filter keeps exactly the rows every item asks for. Whatever the order of evaluation, it
      can fail on a row only if some item breaks there, and has to exactly if besides every item that
      does not break asks for the row. */
  lemma FilterKeepsExactly(items: seq<Item>, r: Row)
    ensures Where(Compile(items), r) == True <==> forall k :: 0 <= k < |items| ==> Asks(items[k], r)
    ensures MayFail(Where(Compile(items), r)) <==> exists k :: 0 <= k < |items| && Breaks(items[k], r)
    ensures Where(Compile(items), r) == Error <==>
            && (exists k :: 0 <= k < |items| && Breaks(items[k], r))
            && (forall k :: 0 <= k < |items| ==> Asks(items[k], r) || Breaks(items[k], r))
  {
    CompiledMeans(items, r);
    assert All(i => Asks(i, r), items) <==> forall k :: 0 <= k < |items| ==> Asks(items[k], r);
  }

  lemma CompiledMeans(items: seq<Item>, r: Row)
    ensures Where(Compile(items), r) == True <==> All(i => Asks(i, r), items)
    ensures MayFail(Where(Compile(items), r)) <==> Any(i => Breaks(i, r), items)
    ensures Where(Compile(items), r) == Error <==>
            Any(i => Breaks(i, r), items) && All(i => Asks(i, r) || Breaks(i, r), items)
  {
    forall i: Item
      ensures Where(CompileItem(i), r) == True <==> Asks(i, r)
      ensures Where(CompileItem(i), r) == Error <==> Breaks(i, r)
      ensures Where(CompileItem(i), r) != RejectOrError
    {
      ItemMeans(i, r);
    }
    var asks, breaks := (i: Item) => Asks(i, r), (i: Item) => Breaks(i, r);
    ConjunctionMeans(CompileItem, items, r, asks, breaks);
    assert All(i => Asks(i, r) || Breaks(i, r), items) <==> All(i => asks(i) || breaks(i), items);
  }

  lemma {:induction false} FlatMapConcat<T>(f: T -> seq<Condition>, a: seq<T>, b: seq<T>)
    ensures FlatMap(f, a + b) == FlatMap(f, a) + FlatMap(f, b)
    decreases |b|
  {
    if b == [] {
      assert a + b == a;
    } else {
      assert (a + b)[..|a + b| - 1] == a + b[..|b| - 1];
      FlatMapConcat(f, a, b[..|b| - 1]);
    }
  }

  lemma AndCommutes(a: Truth, b: Truth)
    ensures And(a, b) == And(b, a)
    ensures And(a, b) == True ==> a == True
  {
  }

  lemma WhereOfConcat(a: seq<Item>, b: seq<Item>, r: Row)
    ensures Where(Compile(a + b), r) == And(Where(Compile(a), r), Where(Compile(b), r))
  {
    FlatMapConcat(CompileItem, a, b);
    WhereConcat(Compile(a), Compile(b), r);
  }

  /** Compiling a concatenation is the conjunction of the compilations; so the order of filters does not
      matter, and adding filters only shrinks the result. */
  lemma FiltersConjoin(a: seq<Item>, b: seq<Item>, r: Row)
    ensures Where(Compile(a + b), r) == And(Where(Compile(a), r), Where(Compile(b), r))
    ensures Where(Compile(a + b), r) == Where(Compile(b + a), r)
    ensures Where(Compile(a + b), r) == True ==> Where(Compile(a), r) == True
  {
    WhereOfConcat(a, b, r);
    WhereOfConcat(b, a, r);
    AndCommutes(Where(Compile(a), r), Where(Compile(b), r));
  }

  function Keep<T>(p: T -> bool, xs: seq<T>): seq<T> {
    if xs == [] then []
    else
      var front, last := Keep(p, xs[..|xs| - 1]), xs[|xs| - 1];
      if p(last) then front + [last] else front
  }

  function OnlyRecognised(items: seq<Item>): seq<Item> {
    Keep(Recognised, items)
  }

  /** Items of unknown attribute or mismatched type may be dropped: the query is the same. */
  lemma UnrecognisedMayBeDropped(items: seq<Item>)
    ensures Compile(OnlyRecognised(items)) == Compile(items)
  {
    forall i: Item | !Recognised(i) ensures CompileItem(i) == [] {
      UnrecognisedIsNeutral(i);
    }
    EmptyPartsMayBeDropped(CompileItem, Recognised, items);
  }

  lemma {:induction false} EmptyPartsMayBeDropped<T>(f: T -> seq<Condition>, keep: T -> bool, xs: seq<T>)
    requires forall x :: !keep(x) ==> f(x) == []
    ensures FlatMap(f, Keep(keep, xs)) == FlatMap(f, xs)
    decreases |xs|
  {
    if xs != [] {
      var front, last := xs[..|xs| - 1], xs[|xs| - 1];
      EmptyPartsMayBeDropped(f, keep, front);
      if keep(last) {
        assert (Keep(keep, front) + [last])[..|Keep(keep, front)|] == Keep(keep, front);
      }
    }
  }

  // ---------- The phone search ----------

  /** What `contains` compiles to on the extracted phone: LIKE on text, or, if the extraction keeps the type
      of the JSON column, the containment operator, which the database does not have for text. */
  datatype PhoneOperator = TextLike | JsonContainment

  /** The database accepts the statement; a rejected one fails whatever the rows are. */
  ghost predicate Accepted(conditions: seq<Condition>, operator: PhoneOperator) {
    operator == TextLike || NoPhoneLike(conditions)
  }

  predicate SearchesPhone(i: Item) {
    i.attribute == PhoneNumber && i.kind == ByText && Strip(i.text) != ""
  }

  ghost predicate NoPhoneLike(conditions: seq<Condition>) {
    forall k :: 0 <= k < |conditions| ==> !conditions[k].PhoneLike?
  }

  lemma NoPhoneLikeConcat(a: seq<Condition>, b: seq<Condition>)
    ensures NoPhoneLike(a + b) <==> NoPhoneLike(a) && NoPhoneLike(b)
  {
    assert forall k :: 0 <= k < |a| ==> (a + b)[k] == a[k];
    assert forall k :: 0 <= k < |b| ==> (a + b)[|a| + k] == b[k];
  }

  lemma PhoneLikeOfItem(i: Item)
    ensures NoPhoneLike(CompileItem(i)) <==> !SearchesPhone(i)
  {
    if SearchesPhone(i) {
      assert CompileItem(i)[0].PhoneLike?;
    }
  }

  lemma {:induction false} NoPhoneLikeOf<T>(f: T -> seq<Condition>, xs: seq<T>, searches: T -> bool)
    requires forall x :: NoPhoneLike(f(x)) <==> !searches(x)
    ensures NoPhoneLike(FlatMap(f, xs)) <==> !Any(searches, xs)
    decreases |xs|
  {
    if xs != [] {
      NoPhoneLikeOf(f, xs[..|xs| - 1], searches);
      NoPhoneLikeConcat(FlatMap(f, xs[..|xs| - 1]), f(xs[|xs| - 1]));
      LastOf(searches, xs);
    }
  }

  /** The statement is rejected exactly if `contains` is taken for containment and some item searches a
      phone. What the other results say of rows is about accepted statements. */
  lemma AcceptedUnlessPhoneContainment(items: seq<Item>, operator: PhoneOperator)
    ensures Accepted(Compile(items), operator) <==>
            operator == TextLike || !exists k :: 0 <= k < |items| && SearchesPhone(items[k])
  {
    forall i: Item {
      PhoneLikeOfItem(i);
    }
    NoPhoneLikeOf(CompileItem, items, SearchesPhone);
  }

  ghost predicate Plain(s: string) {
    '%' !in s && '_' !in s && '\\' !in s
  }

  ghost predicate OccursAt(text: string, part: string, k: int) {
    0 <= k <= |text| - |part| && text[k..k + |part|] == part
  }

  lemma {:induction false} LikeAnything(text: string)
    ensures Like(text, "%")
    decreases |text|
  {
    if text != "" {
      LikeAnything(text[1..]);
    } else {
      assert "%"[1..] == "";
    }
  }

  lemma {:induction false} LikePrefix(text: string, part: string)
    requires Plain(part)
    ensures Like(text, part + "%") <==> OccursAt(text, part, 0)
    decreases |part|
  {
    if part == "" {
      assert part + "%" == "%";
      LikeAnything(text);
    } else {
      assert (part + "%")[1..] == part[1..] + "%";
      assert (part + "%")[0] == part[0];
      if text != "" {
        LikePrefix(text[1..], part[1..]);
        assert OccursAt(text, part, 0) <==> text[0] == part[0] && OccursAt(text[1..], part[1..], 0) by {
          if OccursAt(text, part, 0) {
            assert text[1..][0..|part| - 1] == part[1..];
          }
          if text[0] == part[0] && OccursAt(text[1..], part[1..], 0) {
            assert text[0..|part|] == [text[0]] + text[1..][0..|part| - 1];
          }
        }
      }
    }
  }

  /** A phone search without LIKE wildcards finds exactly the numbers that contain it. */
  lemma {:induction false} PlainPhoneIsSubstring(text: string, phone: string)
    requires Plain(phone)
    ensures Like(text, ContainsPattern(phone)) <==> exists k :: OccursAt(text, phone, k)
    decreases |text|
  {
    var pattern := ContainsPattern(phone);
    assert pattern[1..] == phone + "%";
    LikePrefix(text, phone);
    if text != "" {
      PlainPhoneIsSubstring(text[1..], phone);
      if k :| OccursAt(text, phone, k) && k > 0 {
        assert text[1..][k - 1..k - 1 + |phone|] == text[k..k + |phone|];
        assert OccursAt(text[1..], phone, k - 1);
      }
      if k :| OccursAt(text[1..], phone, k) {
        assert text[k + 1..k + 1 + |phone|] == text[1..][k..k + |phone|];
        assert OccursAt(text, phone, k + 1);
      }
    } else {
      assert forall k :: OccursAt(text, phone, k) ==> k == 0;
    }
  }

  /** A number that a pattern followed by `%` matches: wildcards read as nothing or as a digit, escapes
      as what they escape. */
  function Reading(pattern: string): string {
    if pattern == "" then ""
    else if pattern[0] == '%' then Reading(pattern[1..])
    else if pattern[0] == '_' then "0" + Reading(pattern[1..])
    else if pattern[0] == '\\' then
      if |pattern| == 1 then "%" else [pattern[1]] + Reading(pattern[2..])
    else [pattern[0]] + Reading(pattern[1..])
  }

  lemma {:induction false} ReadingMatches(pattern: string)
    ensures Like(Reading(pattern), pattern + "%")
    decreases |pattern|
  {
    var p := pattern + "%";
    if pattern == "" {
      LikeAnything("");
      assert p == "%";
    } else if pattern[0] == '\\' && |pattern| > 1 {
      ReadingMatches(pattern[2..]);
      assert p[2..] == pattern[2..] + "%";
      assert Reading(pattern)[1..] == Reading(pattern[2..]);
    } else if pattern[0] == '\\' {
      assert p[1] == '%' && p[2..] == "";
    } else {
      ReadingMatches(pattern[1..]);
      assert p[1..] == pattern[1..] + "%";
      if pattern[0] != '%' {
        assert Reading(pattern)[1..] == Reading(pattern[1..]);
      }
    }
  }

  lemma {:induction false} ReadingDiffers(pattern: string)
    ensures |Reading(pattern)| <= |pattern|
    ensures !Plain(pattern) ==> Reading(pattern) != pattern
    decreases |pattern|
  {
    if pattern != "" {
      ReadingDiffers(pattern[1..]);
      if |pattern| > 1 {
        ReadingDiffers(pattern[2..]);
      }
      assert pattern == [pattern[0]] + pattern[1..];
    }
  }

  /** The search finds this number exactly if it contains the phone searched for. */
  ghost predicate SearchedAsSubstring(text: string, phone: string) {
    Like(text, ContainsPattern(phone)) <==> exists k :: OccursAt(text, phone, k)
  }

  /** The phone search is a substring search exactly for phones without wildcards and escapes. */
  lemma PhoneSearchIsSubstringIffPlain(phone: string)
    ensures Plain(phone) <==> forall text: string :: SearchedAsSubstring(text, phone)
  {
    if Plain(phone) {
      forall text: string ensures SearchedAsSubstring(text, phone) {
        PlainPhoneIsSubstring(text, phone);
      }
    } else {
      var text := Reading(phone);
      ReadingMatches(phone);
      ReadingDiffers(phone);
      assert ContainsPattern(phone)[1..] == phone + "%";
      assert Like(text, ContainsPattern(phone));
      forall k ensures !OccursAt(text, phone, k) {
        assert |text| <= |phone| && (k == 0 && |text| == |phone| ==> text[0..|phone|] == text);
      }
      assert !SearchedAsSubstring(text, phone);
    }
  }

  function Underscores(n: nat): string {
    if n == 0 then "" else "_" + Underscores(n - 1)
  }

  lemma {:induction false} LikeUnderscores(text: string, n: nat)
    ensures Like(text, Underscores(n) + "%") <==> |text| >= n
    decreases n
  {
    var p := Underscores(n) + "%";
    if n == 0 {
      assert p == "%";
      LikeAnything(text);
    } else {
      assert p[0] == '_' && p[1..] == Underscores(n - 1) + "%";
      if text != "" {
        LikeUnderscores(text[1..], n - 1);
      }
    }
  }

  /** For instance, a search for n underscores keeps every number of at least n characters. */
  lemma {:induction false} WildcardsAreNotEscaped(text: string, n: nat)
    ensures Like(text, ContainsPattern(Underscores(n))) <==> |text| >= n
    decreases |text|
  {
    var p := ContainsPattern(Underscores(n));
    assert p[1..] == Underscores(n) + "%";
    LikeUnderscores(text, n);
    if text != "" {
      WildcardsAreNotEscaped(text[1..], n);
    }
  }

  /** A phone filter over a row: blank text asks for nothing, other text for numbers that contain what is
      between its outer white space, if that has no wildcards. */
  lemma PhoneFilterMeans(i: Item, r: Row, left: string, phone: string, right: string)
    requires i.attribute == PhoneNumber && i.kind == ByText && i.text == left + phone + right
    requires Blank(left) && Blank(right) && Plain(phone)
    requires phone != "" ==> phone[0] !in {' ', '\t', '\n', '\r'} && phone[|phone| - 1] !in {' ', '\t', '\n', '\r'}
    ensures Where(CompileItem(i), r) == True <==>
            phone == "" || (r.phone.Some? && exists k :: OccursAt(r.phone.value, phone, k))
  {
    StripIs(left, phone, right);
    ItemMeans(i, r);
    if r.phone.Some? {
      PlainPhoneIsSubstring(r.phone.value, phone);
    }
  }

  lemma {:induction false} StripIs(left: string, phone: string, right: string)
    requires Blank(left) && Blank(right)
    requires phone != "" ==> phone[0] !in {' ', '\t', '\n', '\r'} && phone[|phone| - 1] !in {' ', '\t', '\n', '\r'}
    ensures Strip(left + phone + right) == phone
    decreases |left| + |right|
  {
    var s := left + phone + right;
    if left != "" {
      assert s[0] == left[0] && s[1..] == left[1..] + phone + right;
      StripIs(left[1..], phone, right);
    } else if right != "" {
      assert s == phone + right && s[|s| - 1] == right[|right| - 1];
      assert s[..|s| - 1] == left + phone + right[..|right| - 1];
      if phone == "" {
        assert s[0] == right[0] && s[1..] == left + phone + right[1..];
        StripIs(left, phone, right[1..]);
      } else {
        StripIs(left, phone, right[..|right| - 1]);
      }
    } else {
      assert s == phone;
    }
  }

  // ---------- The loop as written ----------

  method ItemConditions(i: Item) returns (conditions: seq<Condition>)
    ensures conditions == CompileItem(i)
  {
    conditions := [];
    if i.attribute == OtherAttribute {
      return;
    }
    if i.kind == ByNumber && i.attribute == RunId {
      if i.number.Some? {
        conditions := conditions + [IdIs(i.number.value)];
      }
    } else if i.kind == ByNumber && i.attribute == WorkflowId {
      if i.number.Some? {
        conditions := conditions + [WorkflowIs(i.number.value)];
      }
    } else if i.kind == ByDates && i.attribute == DateRange {
      if i.since.Some? {
        conditions := conditions + [CreatedSince(i.since.value)];
      }
      if i.until.Some? {
        conditions := conditions + [CreatedUntil(i.until.value)];
      }
    } else if i.kind == BySelection && i.attribute == DispositionCode {
      if i.codes != [] {
        conditions := conditions + [DispositionIn(i.codes)];
      }
    } else if i.kind == ByRadio && i.attribute == Status {
      if i.status == "completed" {
        conditions := conditions + [CompletedIs(true)];
      } else if i.status == "in_progress" {
        conditions := conditions + [CompletedIs(false)];
      }
    } else if (i.kind == ByTags || i.kind == BySelection) && i.attribute == CallTags {
      if i.codes != [] {
        conditions := conditions + [TagsContain(i.codes)];
      }
    } else if i.kind == ByText && i.attribute == PhoneNumber {
      var phone := Strip(i.text);
      if phone != "" {
        conditions := conditions + [PhoneLike(ContainsPattern(phone))];
      }
    } else if i.kind == ByRange {
      if i.attribute == Duration {
        if i.min.Some? {
          conditions := conditions + [DurationAtLeast(i.min.value)];
        }
        if i.max.Some? {
          conditions := conditions + [DurationAtMost(i.max.value)];
        }
      } else if i.attribute == TokenUsage {
        if i.min.Some? {
          conditions := conditions + [CostAtLeast(i.min.value)];
        }
        if i.max.Some? {
          conditions := conditions + [CostAtMost(i.max.value)];
        }
      }
    }
  }

  method ApplyWorkflowRunFilters(filters: seq<Item>) returns (conditions: seq<Condition>)
    ensures conditions == Compile(filters)
    ensures forall r :: Where(conditions, r) == True <==> forall k :: 0 <= k < |filters| ==> Asks(filters[k], r)
  {
    conditions := [];
    for k := 0 to |filters|
      invariant conditions == Compile(filters[..k])
    {
      var more := ItemConditions(filters[k]);
      assert filters[..k + 1][..k] == filters[..k];
      conditions := conditions + more;
    }
    assert filters[..|filters|] == filters;
    forall r ensures Where(conditions, r) == True <==> forall k :: 0 <= k < |filters| ==> Asks(filters[k], r) {
      FilterKeepsExactly(filters, r);
    }
  }
}
