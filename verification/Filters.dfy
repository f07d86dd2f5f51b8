/** Trigger filters: validation, compilation into evaluators, and what they decide.

    The evaluators belong to a library. Assumed of it are the matching of the three leaf dialects,
    the rejection of leaves with an empty attribute or value, and the three-valued algebra, in
    which "no filter" is the identity of both conjunction and disjunction and its own negation, also
    where the filter to negate was dropped.
  */
module Filters {
  import opened Options

  type Attributes = map<string, string>

  // A filter of the configuration; at most one field should be set.
  datatype Filter = Filter(
    all: seq<Filter>, any: seq<Filter>, not: Option<Filter>,
    exact: Attributes, prefix: Attributes, suffix: Attributes)

  datatype Verdict = Pass | Fail | NoFilter {
    function And(other: Verdict): Verdict {
      if NoFilter? then other else if other.NoFilter? then this
      else if Pass? && other.Pass? then Pass else Fail
    }

    function Or(other: Verdict): Verdict {
      if NoFilter? then other else if other.NoFilter? then this
      else if Pass? || other.Pass? then Pass else Fail
    }

    function Negated(): Verdict {
      match this case Pass => Fail case Fail => Pass case NoFilter => NoFilter
    }
  }

  // ---------- Leaves ----------

  datatype Dialect = Exact | Prefix | Suffix

  predicate Matches(d: Dialect, pattern: string, value: string) {
    match d
    case Exact => value == pattern
    case Prefix => pattern <= value
    case Suffix => |pattern| <= |value| && value[|value| - |pattern|..] == pattern
  }

  // The library refuses to build a leaf with an empty attribute or value.
  predicate Refused(attrs: Attributes) {
    exists k <- attrs :: k == "" || attrs[k] == ""
  }

  predicate LeafPasses(d: Dialect, attrs: Attributes, event: Attributes) {
    forall k <- attrs :: k in event && Matches(d, attrs[k], event[k])
  }

  // ---------- Evaluators ----------

  datatype Evaluator =
    | Leaf(dialect: Dialect, attrs: Attributes)
    | AllOf(parts: seq<Evaluator>)
    | AnyOf(parts: seq<Evaluator>)
    | NotOf(part: Option<Evaluator>)

  function Eval(e: Evaluator, event: Attributes): Verdict
    decreases e, 0
  {
    match e
    case Leaf(d, attrs) => if LeafPasses(d, attrs, event) then Pass else Fail
    case AllOf(parts) => EvalAll(parts, event)
    case AnyOf(parts) => EvalAny(parts, event)
    case NotOf(None) => NoFilter
    case NotOf(Some(part)) => Eval(part, event).Negated()
  }

  function EvalAll(parts: seq<Evaluator>, event: Attributes): Verdict
    decreases parts, 1
  {
    if parts == [] then NoFilter else Eval(parts[0], event).And(EvalAll(parts[1..], event))
  }

  function EvalAny(parts: seq<Evaluator>, event: Attributes): Verdict
    decreases parts, 1
  {
    if parts == [] then NoFilter else Eval(parts[0], event).Or(EvalAny(parts[1..], event))
  }

  // ---------- Compilation ----------

  function CompileLeaf(d: Dialect, attrs: Attributes): Option<Evaluator> {
    if Refused(attrs) then None else Some(Leaf(d, attrs))
  }

  // None is a filter that is dropped.
  function Compile(f: Filter): Option<Evaluator>
    decreases f, 0
  {
    if f.exact != map[] then CompileLeaf(Exact, f.exact)
    else if f.prefix != map[] then CompileLeaf(Prefix, f.prefix)
    else if f.suffix != map[] then CompileLeaf(Suffix, f.suffix)
    else if f.all != [] then Some(AllOf(CompileList(f.all)))
    else if f.any != [] then Some(AnyOf(CompileList(f.any)))
    else if f.not.Some? then Some(NotOf(Compile(f.not.value)))
    else None
  }

  function CompileList(fs: seq<Filter>): seq<Evaluator>
    decreases fs, 1
  {
    if fs == [] then []
    else (if Compile(fs[0]).Some? then [Compile(fs[0]).value] else []) + CompileList(fs[1..])
  }

  method MaterializeList(filters: seq<Filter>) returns (parts: seq<Evaluator>)
    ensures parts == CompileList(filters)
    decreases filters, 1
  {
    parts := [];
    for i := 0 to |filters|
      invariant CompileList(filters) == parts + CompileList(filters[i..])
    {
      assert filters[i..][0] == filters[i] && filters[i..][1..] == filters[i + 1..];
      var f := Materialize(filters[i]);
      if f == None {
        continue;
      }
      parts := parts + [f.value];
    }
  }

  method Materialize(filter: Filter) returns (e: Option<Evaluator>)
    ensures e == Compile(filter)
    decreases filter, 0
  {
    e := None;
    if |filter.exact| > 0 {
      if Refused(filter.exact) { return None; }
      e := Some(Leaf(Exact, filter.exact));
    } else if |filter.prefix| > 0 {
      if Refused(filter.prefix) { return None; }
      e := Some(Leaf(Prefix, filter.prefix));
    } else if |filter.suffix| > 0 {
      if Refused(filter.suffix) { return None; }
      e := Some(Leaf(Suffix, filter.suffix));
    } else if |filter.all| > 0 {
      var parts := MaterializeList(filter.all);
      e := Some(AllOf(parts));
    } else if |filter.any| > 0 {
      var parts := MaterializeList(filter.any);
      e := Some(AnyOf(parts));
    } else if filter.not != None {
      var part := Materialize(filter.not.value);
      e := Some(NotOf(part));
    }
  }

  // What a leaf says of an event, spelled out: a leaf without attribute or value is dropped; any other
  // passes exactly the events that have every attribute with a value that equals the one given, starts
  // with it, or ends with it.
  lemma LeafSays(attrs: Attributes, event: Attributes)
    requires attrs != map[]
    ensures var dropped := exists k <- attrs :: k == "" || attrs[k] == "";
            var exact, prefix, suffix := Compile(EMPTY.(exact := attrs)), Compile(EMPTY.(prefix := attrs)),
                                         Compile(EMPTY.(suffix := attrs));
            if dropped then exact.None? && prefix.None? && suffix.None?
            else
              && exact.Some? && prefix.Some? && suffix.Some?
              && Eval(exact.value, event)
                 == (if forall k <- attrs :: k in event && event[k] == attrs[k] then Pass else Fail)
              && Eval(prefix.value, event)
                 == (if forall k <- attrs ::
                          k in event && |attrs[k]| <= |event[k]| && event[k][..|attrs[k]|] == attrs[k]
                     then Pass else Fail)
              && Eval(suffix.value, event)
                 == (if forall k <- attrs ::
                          k in event && |attrs[k]| <= |event[k]| && event[k][|event[k]| - |attrs[k]|..] == attrs[k]
                     then Pass else Fail)
  {
    assert forall k <- attrs :: k in event ==>
      (Matches(Prefix, attrs[k], event[k]) <==> |attrs[k]| <= |event[k]| && event[k][..|attrs[k]|] == attrs[k]);
  }

  // How verdicts combine, spelled out.
  lemma VerdictTables(v: Verdict, w: Verdict)
    ensures v.And(w) == if Fail in {v, w} then Fail else if Pass in {v, w} then Pass else NoFilter
    ensures v.Or(w) == if Pass in {v, w} then Pass else if Fail in {v, w} then Fail else NoFilter
    ensures v.Negated() == Opposite(v)
  {
  }

  // What a compiled filter says; a dropped one says nothing.
  function Says(f: Filter, event: Attributes): Verdict {
    if Compile(f).None? then NoFilter else Eval(Compile(f).value, event)
  }

  // ---------- The direct reading of a filter tree ----------

  ghost function LeafReading(d: Dialect, attrs: Attributes, event: Attributes): Verdict {
    if attrs == map[] || Refused(attrs) then NoFilter
    else if LeafPasses(d, attrs, event) then Pass else Fail
  }

  ghost function Opposite(v: Verdict): Verdict {
    if v == Pass then Fail else if v == Fail then Pass else NoFilter
  }

  // Every dialect that is set has to hold.
  ghost function Reading(f: Filter, event: Attributes): Verdict
    decreases f, 0
  {
    LeafReading(Exact, f.exact, event)
    .And(LeafReading(Prefix, f.prefix, event))
    .And(LeafReading(Suffix, f.suffix, event))
    .And(AllReading(f.all, event))
    .And(AnyReading(f.any, event))
    .And(if f.not.Some? then Opposite(Reading(f.not.value, event)) else NoFilter)
  }

  // One member that fails decides; otherwise one that passes does.
  ghost function AllReading(fs: seq<Filter>, event: Attributes): Verdict
    decreases fs, 1
  {
    if exists i :: 0 <= i < |fs| && Reading(fs[i], event).Fail? then Fail
    else if exists i :: 0 <= i < |fs| && Reading(fs[i], event).Pass? then Pass
    else NoFilter
  }

  ghost function AnyReading(fs: seq<Filter>, event: Attributes): Verdict
    decreases fs, 1
  {
    if exists i :: 0 <= i < |fs| && Reading(fs[i], event).Pass? then Pass
    else if exists i :: 0 <= i < |fs| && Reading(fs[i], event).Fail? then Fail
    else NoFilter
  }

  // ---------- Validation ----------

  function Dialects(f: Filter): nat {
    (if f.exact != map[] then 1 else 0) + (if f.prefix != map[] then 1 else 0)
    + (if f.suffix != map[] then 1 else 0) + (if f.all != [] then 1 else 0)
    + (if f.any != [] then 1 else 0) + (if f.not.Some? then 1 else 0)
  }

  method HasMultipleDialects(f: Filter) returns (multiple: bool)
    ensures multiple <==> Dialects(f) > 1
  {
    var dialectFound := false;
    if |f.exact| > 0 {
      dialectFound := true;
    }
    if |f.prefix| > 0 {
      if dialectFound { return true; } else { dialectFound := true; }
    }
    if |f.suffix| > 0 {
      if dialectFound { return true; } else { dialectFound := true; }
    }
    if |f.all| > 0 {
      if dialectFound { return true; } else { dialectFound := true; }
    }
    if |f.any| > 0 {
      if dialectFound { return true; } else { dialectFound := true; }
    }
    if f.not != None && dialectFound {
      return true;
    }
    return false;
  }

  predicate LowerCase(c: char) { 'a' <= c <= 'z' }

  predicate ValidAttributeName(s: string) {
    s != [] && LowerCase(s[0]) && forall c <- s :: LowerCase(c) || '0' <= c <= '9'
  }

  // The pattern for names: a letter, and then letters and digits.
  lemma NamePattern(s: string)
    ensures ValidAttributeName(s) <==>
              && s != [] && 'a' <= s[0] <= 'z'
              && forall k :: 0 < k < |s| ==> 'a' <= s[k] <= 'z' || '0' <= s[k] <= '9'
  {
    if s != [] {
      assert forall k :: 0 <= k < |s| ==> s[k] in s;
    }
  }

  predicate ValidAttributes(attrs: Attributes) {
    forall k <- attrs :: ValidAttributeName(k)
  }

  // Lists are looked into only when the feature is enabled; a nested not always is.
  predicate Validates(f: Filter, enabled: bool)
    decreases f, 0
  {
    && Dialects(f) <= 1
    && ValidAttributes(f.exact) && ValidAttributes(f.prefix) && ValidAttributes(f.suffix)
    && ListValidates(f.all, enabled) && ListValidates(f.any, enabled)
    && (f.not.Some? ==> Validates(f.not.value, enabled))
  }

  predicate ListValidates(fs: seq<Filter>, enabled: bool)
    decreases fs, 1
  {
    fs == [] || !enabled || (Validates(fs[0], enabled) && ListValidates(fs[1..], enabled))
  }

  // At most one dialect at every node.
  ghost predicate SingleDialect(f: Filter) {
    && Dialects(f) <= 1
    && (forall i :: 0 <= i < |f.all| ==> SingleDialect(f.all[i]))
    && (forall i :: 0 <= i < |f.any| ==> SingleDialect(f.any[i]))
    && (f.not.Some? ==> SingleDialect(f.not.value))
  }

  ghost predicate NamesValid(f: Filter) {
    && ValidAttributes(f.exact) && ValidAttributes(f.prefix) && ValidAttributes(f.suffix)
    && (forall i :: 0 <= i < |f.all| ==> NamesValid(f.all[i]))
    && (forall i :: 0 <= i < |f.any| ==> NamesValid(f.any[i]))
    && (f.not.Some? ==> NamesValid(f.not.value))
  }

  // With the feature enabled, validation accepts just the trees with one dialect per node and
  // well-formed attribute names throughout.
  lemma {:induction false} ValidationIsExact(f: Filter)
    ensures Validates(f, true) <==> SingleDialect(f) && NamesValid(f)
    decreases f, 0
  {
    ListValidationIsExact(f.all);
    ListValidationIsExact(f.any);
    if f.not.Some? {
      ValidationIsExact(f.not.value);
    }
  }

  lemma {:induction false} ListValidationIsExact(fs: seq<Filter>)
    ensures ListValidates(fs, true) <==> forall i :: 0 <= i < |fs| ==> SingleDialect(fs[i]) && NamesValid(fs[i])
    decreases fs, 1
  {
    if fs != [] {
      ValidationIsExact(fs[0]);
      ListValidationIsExact(fs[1..]);
      assert forall i :: 0 < i < |fs| ==> fs[i] == fs[1..][i - 1];
    }
  }

  ghost predicate UnderNots(f: Filter, g: Filter) {
    g == f || (f.not.Some? && UnderNots(f.not.value, g))
  }

  // With the feature disabled every list is accepted, and of a single filter just the node itself and
  // those reached from it through negations are looked at.
  lemma {:induction false} DisabledValidation(f: Filter, fs: seq<Filter>)
    ensures ListValidates(fs, false)
    ensures Validates(f, false) <==>
              forall g | UnderNots(f, g) ::
                Dialects(g) <= 1 && ValidAttributes(g.exact) && ValidAttributes(g.prefix) && ValidAttributes(g.suffix)
    decreases f
  {
    hide Dialects, ValidAttributes;
    assert UnderNots(f, f);
    if f.not.Some? {
      DisabledValidation(f.not.value, fs);
      assert forall g | UnderNots(f.not.value, g) :: UnderNots(f, g);
    }
  }

  // ---------- Compilation preserves meaning ----------

  // The conjunction the evaluator folds up is the closed form over what its members say.
  lemma {:induction false} FoldedAll(fs: seq<Filter>, event: Attributes)
    ensures EvalAll(CompileList(fs), event) ==
            if exists i :: 0 <= i < |fs| && Says(fs[i], event).Fail? then Fail
            else if exists i :: 0 <= i < |fs| && Says(fs[i], event).Pass? then Pass
            else NoFilter
    decreases |fs|
  {
    if fs != [] {
      var rest := fs[1..];
      FoldedAll(rest, event);
      FirstOrRest(fs, event, Fail);
      FirstOrRest(fs, event, Pass);
      if Compile(fs[0]).Some? {
        assert CompileList(fs)[1..] == CompileList(rest);
      } else {
        assert CompileList(fs) == CompileList(rest);
      }
    }
  }

  lemma {:induction false} FoldedAny(fs: seq<Filter>, event: Attributes)
    ensures EvalAny(CompileList(fs), event) ==
            if exists i :: 0 <= i < |fs| && Says(fs[i], event).Pass? then Pass
            else if exists i :: 0 <= i < |fs| && Says(fs[i], event).Fail? then Fail
            else NoFilter
    decreases |fs|
  {
    if fs != [] {
      var rest := fs[1..];
      FoldedAny(rest, event);
      FirstOrRest(fs, event, Fail);
      FirstOrRest(fs, event, Pass);
      if Compile(fs[0]).Some? {
        assert CompileList(fs)[1..] == CompileList(rest);
      } else {
        assert CompileList(fs) == CompileList(rest);
      }
    }
  }

  lemma FirstOrRest(fs: seq<Filter>, event: Attributes, v: Verdict)
    requires fs != []
    ensures (exists i :: 0 <= i < |fs| && Says(fs[i], event) == v)
            <==> Says(fs[0], event) == v || exists i :: 0 <= i < |fs[1..]| && Says(fs[1..][i], event) == v
  {
    if i :| 0 < i < |fs| && Says(fs[i], event) == v {
      assert fs[1..][i - 1] == fs[i];
    }
  }

  lemma ListPreservesMeaning(fs: seq<Filter>, event: Attributes)
    requires forall i :: 0 <= i < |fs| ==> Says(fs[i], event) == Reading(fs[i], event)
    ensures EvalAll(CompileList(fs), event) == AllReading(fs, event)
    ensures EvalAny(CompileList(fs), event) == AnyReading(fs, event)
  {
    FoldedAll(fs, event);
    FoldedAny(fs, event);
  }

  // For every tree that sets at most one dialect per node and every event.
  lemma {:induction false} CompilationPreservesMeaning(f: Filter, event: Attributes)
    requires SingleDialect(f)
    ensures Says(f, event) == Reading(f, event)
    decreases f, 0
  {
    assert AllReading([], event) == AnyReading([], event) == NoFilter;
    MembersPreserveMeaning(f.all, event);
    MembersPreserveMeaning(f.any, event);
    ListPreservesMeaning(f.all, event);
    ListPreservesMeaning(f.any, event);
    if f.not.Some? {
      CompilationPreservesMeaning(f.not.value, event);
    }
  }

  lemma {:induction false} MembersPreserveMeaning(fs: seq<Filter>, event: Attributes)
    requires forall i :: 0 <= i < |fs| ==> SingleDialect(fs[i])
    ensures forall i :: 0 <= i < |fs| ==> Says(fs[i], event) == Reading(fs[i], event)
    decreases fs, 1
  {
    forall i | 0 <= i < |fs| ensures Says(fs[i], event) == Reading(fs[i], event) {
      CompilationPreservesMeaning(fs[i], event);
    }
  }

  ghost predicate AllSingleDialect(fs: seq<Filter>) {
    forall i :: 0 <= i < |fs| ==> SingleDialect(fs[i])
  }

  ghost predicate SomeReadsFail(fs: seq<Filter>, event: Attributes) {
    exists i :: 0 <= i < |fs| && Reading(fs[i], event).Fail?
  }

  // A trigger skips an event exactly when one of its filters reads as failing.
  lemma RootDecision(fs: seq<Filter>, event: Attributes)
    ensures AllSingleDialect(fs) ==> (EvalAll(CompileList(fs), event).Fail? <==> SomeReadsFail(fs, event))
  {
    if !AllSingleDialect(fs) {
      return;
    }
    MembersPreserveMeaning(fs, event);
    ListPreservesMeaning(fs, event);
  }

  // ---------- More than one dialect ----------

  const EMPTY := Filter([], [], None, map[], map[], map[])

  // The node with its first dialect only, in the order in which they are looked at.
  function FirstOnly(f: Filter): Filter {
    if f.exact != map[] then EMPTY.(exact := f.exact)
    else if f.prefix != map[] then EMPTY.(prefix := f.prefix)
    else if f.suffix != map[] then EMPTY.(suffix := f.suffix)
    else if f.all != [] then EMPTY.(all := f.all)
    else if f.any != [] then EMPTY.(any := f.any)
    else EMPTY.(not := f.not)
  }

  // The node without its first dialect.
  function Ignored(f: Filter): Filter {
    if f.exact != map[] then f.(exact := map[])
    else if f.prefix != map[] then f.(prefix := map[])
    else if f.suffix != map[] then f.(suffix := map[])
    else if f.all != [] then f.(all := [])
    else if f.any != [] then f.(any := [])
    else f.(not := None)
  }

  // The first dialects at every depth.
  function FirstDialects(f: Filter): Filter
    decreases f, 0
  {
    if f.exact != map[] then EMPTY.(exact := f.exact)
    else if f.prefix != map[] then EMPTY.(prefix := f.prefix)
    else if f.suffix != map[] then EMPTY.(suffix := f.suffix)
    else if f.all != [] then EMPTY.(all := FirstDialectsOf(f.all))
    else if f.any != [] then EMPTY.(any := FirstDialectsOf(f.any))
    else if f.not.Some? then EMPTY.(not := Some(FirstDialects(f.not.value)))
    else EMPTY
  }

  function FirstDialectsOf(fs: seq<Filter>): (gs: seq<Filter>)
    ensures |gs| == |fs|
    ensures forall i :: 0 <= i < |fs| ==> gs[i] == FirstDialects(fs[i])
    decreases fs, 1
  {
    if fs == [] then [] else [FirstDialects(fs[0])] + FirstDialectsOf(fs[1..])
  }

  lemma {:induction false} CompilesAlike(f: Filter)
    ensures Compile(f) == Compile(FirstDialects(f)) && SingleDialect(FirstDialects(f))
    decreases f, 0
  {
    CompileAlike(f.all);
    CompileAlike(f.any);
    if f.not.Some? {
      CompilesAlike(f.not.value);
    }
  }

  lemma {:induction false} CompileAlike(fs: seq<Filter>)
    ensures CompileList(fs) == CompileList(FirstDialectsOf(fs))
    ensures AllSingleDialect(FirstDialectsOf(fs))
    decreases fs, 1
  {
    if fs != [] {
      CompilesAlike(fs[0]);
      CompileAlike(fs[1..]);
      var gs := FirstDialectsOf(fs);
      assert gs[1..] == FirstDialectsOf(fs[1..]);
      forall i | 0 <= i < |gs| ensures SingleDialect(gs[i]) {
        CompilesAlike(fs[i]);
      }
    }
  }

  // For every tree whatever, with any number of dialects at any node, and every event: what the
  // compiled filter says is the direct reading of the tree reduced to the first dialect at every
  // node. So all but the first are ignored.
  lemma FirstDialectDecides(f: Filter, event: Attributes)
    ensures SingleDialect(FirstDialects(f)) && Says(f, event) == Reading(FirstDialects(f), event)
  {
    CompilesAlike(f);
    CompilationPreservesMeaning(FirstDialects(f), event);
  }

  // The dialects are looked at in this order, and the first that is set decides alone.
  lemma DialectsInOrder(f: Filter, event: Attributes)
    ensures f.exact != map[] ==> Says(f, event) == LeafReading(Exact, f.exact, event)
    ensures f.exact == map[] && f.prefix != map[] ==> Says(f, event) == LeafReading(Prefix, f.prefix, event)
    ensures f.exact == f.prefix == map[] && f.suffix != map[] ==>
              Says(f, event) == LeafReading(Suffix, f.suffix, event)
    ensures f.exact == f.prefix == f.suffix == map[] ==>
              && (f.all != [] ==> Says(f, event) == EvalAll(CompileList(f.all), event))
              && (f.all == [] && f.any != [] ==> Says(f, event) == EvalAny(CompileList(f.any), event))
              && (f.all == f.any == [] ==>
                    Says(f, event) == if f.not.None? then NoFilter else Opposite(Says(f.not.value, event)))
  {
    hide LeafPasses, Refused;
  }

  ghost predicate MembersSingle(f: Filter) {
    AllSingleDialect(f.all) && AllSingleDialect(f.any) && (f.not.Some? ==> SingleDialect(f.not.value))
  }

  lemma EmptyReadings(event: Attributes)
    ensures AllReading([], event) == AnyReading([], event) == NoFilter
    ensures forall d :: LeafReading(d, map[], event) == NoFilter
  {
  }

  lemma SplitReading(f: Filter, event: Attributes)
    ensures Reading(f, event) == Reading(FirstOnly(f), event).And(Reading(Ignored(f), event))
  {
    EmptyReadings(event);
    hide LeafReading, AllReading, AnyReading;
  }

  // Exactly when the dialects that are ignored matter, for every node, be it with one dialect or
  // several: the verdicts differ if and only if the first one passes and the conjunction of the
  // others fails, or the first was dropped and the others say something. The decision to skip an
  // event differs just when the others fail and the first does not.
  lemma IgnoredDialectsMatter(f: Filter, event: Attributes)
    requires MembersSingle(f)
    ensures var first, rest := Reading(FirstOnly(f), event), Reading(Ignored(f), event);
            && Says(f, event) == first && Reading(f, event) == first.And(rest)
            && (Says(f, event) != Reading(f, event)
                <==> (first.Pass? && rest.Fail?) || (first.NoFilter? && !rest.NoFilter?))
            && (Says(f, event).Fail? != Reading(f, event).Fail? <==> !first.Fail? && rest.Fail?)
  {
    var g := FirstOnly(f);
    assert Compile(f) == Compile(g);
    assert SingleDialect(g);
    CompilationPreservesMeaning(g, event);
    SplitReading(f, event);
  }

  // Such filters get through: while the feature is disabled, validation of a trigger's filters
  // accepts every list, and then an event that the second dialect fails is delivered.
  lemma SecondDialectIsIgnored(attribute: string, value: string, other: string, pattern: string)
    requires attribute != other && attribute != "" && other != "" && value != "" && pattern != ""
    ensures var f := EMPTY.(exact := map[attribute := value], prefix := map[other := pattern]);
            && ListValidates([f], false) && !Validates(f, true)
            && forall event: Attributes | attribute in event && event[attribute] == value
                                          && (other in event ==> !(pattern <= event[other])) ::
                 EvalAll(CompileList([f]), event).Pass? && Reading(f, event).Fail?
  {
    var f := EMPTY.(exact := map[attribute := value], prefix := map[other := pattern]);
    assert attribute in f.exact && other in f.prefix;
    assert Dialects(f) == 2;
    forall event: Attributes | attribute in event && event[attribute] == value
                               && (other in event ==> !(pattern <= event[other]))
      ensures EvalAll(CompileList([f]), event).Pass? && Reading(f, event).Fail?
    {
      EmptyReadings(event);
      assert LeafReading(Exact, f.exact, event).Pass? && LeafReading(Prefix, f.prefix, event).Fail?;
      assert Says(f, event).Pass?;
      assert [f][0] == f;
      FoldedAll([f], event);
    }
  }

  // ---------- Order does not matter ----------

  // The same tree up to the order and repetition of list members, at any depth.
  ghost predicate Alike(f: Filter, g: Filter)
    decreases f, 0
  {
    && f.exact == g.exact && f.prefix == g.prefix && f.suffix == g.suffix
    && (f.not.Some? <==> g.not.Some?)
    && (f.not.Some? ==> Alike(f.not.value, g.not.value))
    && ListsAlike(f.all, g.all) && ListsAlike(f.any, g.any)
  }

  ghost predicate ListsAlike(fs: seq<Filter>, gs: seq<Filter>)
    decreases fs, 2
  {
    exists to: seq<nat>, from: seq<nat> :: Matched(fs, gs, to, from)
  }

  // Member i of fs is like member to[i] of gs, and member j of gs like member from[j] of fs.
  ghost predicate Matched(fs: seq<Filter>, gs: seq<Filter>, to: seq<nat>, from: seq<nat>)
    decreases fs, 1
  {
    && |to| == |fs| && |from| == |gs|
    && (forall i :: 0 <= i < |fs| ==> to[i] < |gs| && Alike(fs[i], gs[to[i]]))
    && (forall j :: 0 <= j < |gs| ==> from[j] < |fs| && Alike(fs[from[j]], gs[j]))
  }

  // Reordering or repeating members changes no decision, at the root or below.
  lemma {:induction false} AlikeListsDecideAlike(fs: seq<Filter>, gs: seq<Filter>, event: Attributes)
    requires ListsAlike(fs, gs)
    ensures EvalAll(CompileList(fs), event) == EvalAll(CompileList(gs), event)
    ensures EvalAny(CompileList(fs), event) == EvalAny(CompileList(gs), event)
    ensures fs == [] <==> gs == []
    decreases fs, 1
  {
    var to: seq<nat>, from: seq<nat> :| Matched(fs, gs, to, from);
    forall i | 0 <= i < |fs| ensures Says(fs[i], event) == Says(gs[to[i]], event) {
      AlikeSaysAlike(fs[i], gs[to[i]], event);
    }
    forall j | 0 <= j < |gs| ensures Says(fs[from[j]], event) == Says(gs[j], event) {
      AlikeSaysAlike(fs[from[j]], gs[j], event);
    }
    SameVerdicts(fs, gs, event, to, from);
  }

  lemma SameVerdicts(fs: seq<Filter>, gs: seq<Filter>, event: Attributes, to: seq<nat>, from: seq<nat>)
    requires |to| == |fs| && |from| == |gs|
    requires forall i :: 0 <= i < |fs| ==> to[i] < |gs| && Says(fs[i], event) == Says(gs[to[i]], event)
    requires forall j :: 0 <= j < |gs| ==> from[j] < |fs| && Says(fs[from[j]], event) == Says(gs[j], event)
    ensures EvalAll(CompileList(fs), event) == EvalAll(CompileList(gs), event)
    ensures EvalAny(CompileList(fs), event) == EvalAny(CompileList(gs), event)
    ensures fs == [] <==> gs == []
  {
    FoldedAll(fs, event);
    FoldedAll(gs, event);
    FoldedAny(fs, event);
    FoldedAny(gs, event);
    if fs != [] { assert to[0] < |gs|; }
    if gs != [] { assert from[0] < |fs|; }
  }

  lemma {:induction false} AlikeSaysAlike(f: Filter, g: Filter, event: Attributes)
    requires Alike(f, g)
    ensures Says(f, event) == Says(g, event)
    decreases f, 0
  {
    hide ListsAlike, Matched, LeafPasses, Refused, EvalAll, EvalAny, CompileList;
    AlikeListsDecideAlike(f.all, g.all, event);
    AlikeListsDecideAlike(f.any, g.any, event);
    if f.not.Some? {
      AlikeSaysAlike(f.not.value, g.not.value, event);
    }
  }

  function Find(fs: seq<Filter>, f: Filter): (i: nat)
    requires f in fs
    ensures i < |fs| && fs[i] == f
  {
    if fs[0] == f then 0 else 1 + Find(fs[1..], f)
  }

  lemma SameMembersDecideAlike(fs: seq<Filter>, gs: seq<Filter>, event: Attributes)
    requires (forall f <- fs :: f in gs) && (forall g <- gs :: g in fs)
    ensures EvalAll(CompileList(fs), event) == EvalAll(CompileList(gs), event)
  {
    var to := seq(|fs|, i requires 0 <= i < |fs| => Find(gs, fs[i]));
    var from := seq(|gs|, j requires 0 <= j < |gs| => Find(fs, gs[j]));
    SameVerdicts(fs, gs, event, to, from);
  }

  // In particular, any permutation of a trigger's filters decides alike.
  lemma PermutedFiltersDecideAlike(fs: seq<Filter>, gs: seq<Filter>, event: Attributes)
    requires multiset(fs) == multiset(gs)
    ensures EvalAll(CompileList(fs), event) == EvalAll(CompileList(gs), event)
  {
    forall f <- fs ensures f in gs { assert f in multiset(fs); }
    forall g <- gs ensures g in fs { assert g in multiset(gs); }
    SameMembersDecideAlike(fs, gs, event);
  }
}
