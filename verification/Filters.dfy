/** The filter expressions of NucliaDB queries: combining them, and building one from the
    caller's and the driver's filters. What an atom accepts is a parameter, and so is the
    parser of old-format filters. */
module Filters {
  import opened Wrappers
  import Text

  // ---- Expressions and what they accept ----

  datatype Operator = AndOp | OrOp

  datatype Expr = Keyword(word: string) | Resource(id: string) | Other(text: string)
    | And(operands: seq<Expr>) | Or(operands: seq<Expr>) | Not(operand: Expr)

  predicate Accepts(e: Expr, sat: Expr -> bool)
    decreases e
  {
    match e
    case And(operands) => All(operands, sat)
    case Or(operands) => Any(operands, sat)
    case Not(operand) => !Accepts(operand, sat)
    case _ => sat(e)
  }

  predicate All(es: seq<Expr>, sat: Expr -> bool)
    decreases es
  {
    es == [] || (Accepts(es[0], sat) && All(es[1..], sat))
  }

  predicate Any(es: seq<Expr>, sat: Expr -> bool)
    decreases es
  {
    es != [] && (Accepts(es[0], sat) || Any(es[1..], sat))
  }

  predicate Joined(op: Operator, es: seq<Expr>, sat: Expr -> bool) { if op == AndOp then All(es, sat) else Any(es, sat) }

  datatype FilterExpression = FilterExpression(field: Option<Expr>, paragraph: Option<Expr>, operator: Operator)

  /** An absent side imposes nothing. */
  predicate Means(f: FilterExpression, sat: Expr -> bool) {
    match (f.field, f.paragraph)
    case (None, None) => true
    case (Some(e), None) => Accepts(e, sat)
    case (None, Some(e)) => Accepts(e, sat)
    case (Some(d), Some(e)) => Joined(f.operator, [d, e], sat)
  }

  predicate AllMean(fs: seq<FilterExpression>, sat: Expr -> bool) {
    fs == [] || (Means(fs[0], sat) && AllMean(fs[1..], sat))
  }

  predicate AnyMeans(fs: seq<FilterExpression>, sat: Expr -> bool) {
    fs != [] && (Means(fs[0], sat) || AnyMeans(fs[1..], sat))
  }

  // ---- Combining ----

  /** One operand stays as it is; several become one expression. */
  function Group(op: Operator, es: seq<Expr>): Option<Expr> {
    if es == [] then None else if |es| == 1 then Some(es[0]) else Some(if op == AndOp then And(es) else Or(es))
  }

  lemma OneOperand(e: Expr, sat: Expr -> bool)
    ensures All([e], sat) == Accepts(e, sat) && Any([e], sat) == Accepts(e, sat)
  {
    hide Accepts;
    var none: seq<Expr> := [];
    assert [e][1..] == none && All(none, sat) && !Any(none, sat);
  }

  lemma GroupMeans(op: Operator, es: seq<Expr>, sat: Expr -> bool)
    ensures es != [] ==> Accepts(Group(op, es).value, sat) == Joined(op, es, sat)
  {
    if |es| == 1 {
      assert es == [es[0]];
      OneOperand(es[0], sat);
    }
  }

  function Given(e: Option<Expr>): seq<Expr> { if e.Some? then [e.value] else [] }

  function Fields(fs: seq<FilterExpression>): seq<Expr> {
    if fs == [] then [] else Given(fs[0].field) + Fields(fs[1..])
  }

  function Paragraphs(fs: seq<FilterExpression>): seq<Expr> {
    if fs == [] then [] else Given(fs[0].paragraph) + Paragraphs(fs[1..])
  }

  datatype Error = NothingToCombine | OperatorsDiffer

  predicate SameOperator(fs: seq<FilterExpression>, op: Operator) { forall f :: f in fs ==> f.operator == op }

  /** `combine_filter_expressions` */
  function Combine(fs: seq<FilterExpression>, op: Operator): Result<FilterExpression, Error> {
    if fs == [] then Err(NothingToCombine)
    else if |fs| == 1 then Ok(fs[0])
    else if !SameOperator(fs, fs[0].operator) then Err(OperatorsDiffer)
    else Ok(FilterExpression(Group(op, Fields(fs)), Group(op, Paragraphs(fs)), fs[0].operator))
  }

  predicate HasSide(f: FilterExpression) { f.field.Some? || f.paragraph.Some? }

  lemma {:induction false} AllConcat(a: seq<Expr>, b: seq<Expr>, sat: Expr -> bool)
    ensures All(a + b, sat) == (All(a, sat) && All(b, sat)) && Any(a + b, sat) == (Any(a, sat) || Any(b, sat))
    decreases |a|
  {
    hide Accepts;
    if a == [] {
      assert a + b == b;
    } else {
      assert (a + b)[1..] == a[1..] + b;
      AllConcat(a[1..], b, sat);
    }
  }

  lemma GivenMeans(e: Option<Expr>, sat: Expr -> bool)
    ensures All(Given(e), sat) == (e.Some? ==> Accepts(e.value, sat)) && Any(Given(e), sat) == (e.Some? && Accepts(e.value, sat))
  {
    if e.Some? {
      OneOperand(e.value, sat);
    }
  }

  lemma {:induction false} SidesMean(fs: seq<FilterExpression>, own: Operator, sat: Expr -> bool)
    requires SameOperator(fs, own)
    ensures own == AndOp || Paragraphs(fs) == [] || Fields(fs) == [] ==>
              (AllMean(fs, sat) <==> All(Fields(fs), sat) && All(Paragraphs(fs), sat))
    ensures (own == OrOp || Paragraphs(fs) == [] || Fields(fs) == []) && (forall f :: f in fs ==> HasSide(f)) ==>
              (AnyMeans(fs, sat) <==> Any(Fields(fs), sat) || Any(Paragraphs(fs), sat))
    decreases |fs|
  {
    hide Accepts;
    if fs != [] {
      assert fs[0] in fs && forall f :: f in fs[1..] ==> f in fs;
      SidesMean(fs[1..], own, sat);
      AllConcat(Given(fs[0].field), Fields(fs[1..]), sat);
      AllConcat(Given(fs[0].paragraph), Paragraphs(fs[1..]), sat);
      GivenMeans(fs[0].field, sat);
      GivenMeans(fs[0].paragraph, sat);
      OneMeans(fs[0], sat);
    }
  }

  lemma OneMeans(f: FilterExpression, sat: Expr -> bool)
    ensures f.operator == AndOp || f.field.None? || f.paragraph.None? ==>
              Means(f, sat) == ((f.field.Some? ==> Accepts(f.field.value, sat)) && (f.paragraph.Some? ==> Accepts(f.paragraph.value, sat)))
    ensures HasSide(f) && (f.operator == OrOp || f.field.None? || f.paragraph.None?) ==>
              Means(f, sat) == ((f.field.Some? && Accepts(f.field.value, sat)) || (f.paragraph.Some? && Accepts(f.paragraph.value, sat)))
  {
    hide Accepts;
    if f.field.Some? && f.paragraph.Some? {
      TwoJoined(f.operator, f.field.value, f.paragraph.value, sat);
    }
  }

  /** The components that filter anything. */
  function Sided(fs: seq<FilterExpression>): (r: seq<FilterExpression>)
    ensures |r| <= |fs| && forall f :: f in r <==> f in fs && HasSide(f)
  {
    if fs == [] then [] else (if HasSide(fs[0]) then [fs[0]] else []) + Sided(fs[1..])
  }

  lemma {:induction false} SidedIsEnough(fs: seq<FilterExpression>, sat: Expr -> bool)
    ensures Fields(Sided(fs)) == Fields(fs) && Paragraphs(Sided(fs)) == Paragraphs(fs)
    ensures AllMean(Sided(fs), sat) <==> AllMean(fs, sat)
    ensures Sided(fs) == [] && fs != [] ==> AnyMeans(fs, sat)
    decreases |fs|
  {
    hide Accepts, Means, Given, HasSide;
    if fs != [] {
      SidedIsEnough(fs[1..], sat);
      if HasSide(fs[0]) {
        assert Sided(fs) == [fs[0]] + Sided(fs[1..]) && Sided(fs)[1..] == Sided(fs[1..]);
      } else {
        NoSides(fs[0], sat);
        assert Sided(fs) == Sided(fs[1..]);
      }
    }
  }

  /** Sides of two kinds can be joined only by the components' own operator. */
  predicate Fits(fs: seq<FilterExpression>, op: Operator)
    requires fs != []
  {
    op == fs[0].operator || Fields(fs) == [] || Paragraphs(fs) == []
  }

  /** The cases in which combining means what its operator says. */
  predicate CanCombine(fs: seq<FilterExpression>, op: Operator) {
    |fs| == 1 ||
    (fs != [] && SameOperator(fs, fs[0].operator) &&
     if op == AndOp then Fits(fs, op) || |Sided(fs)| <= 1
     else Sided(fs) == [] || (Fits(fs, op) && forall f :: f in fs ==> HasSide(f)))
  }

  /** "And" is what all components mean, "or" what any means. */
  predicate JointlyMean(fs: seq<FilterExpression>, op: Operator, sat: Expr -> bool) {
    if op == AndOp then AllMean(fs, sat) else AnyMeans(fs, sat)
  }

  /** What combining several components of one operator means, side by side. */
  lemma CombinedSides(fs: seq<FilterExpression>, op: Operator, sat: Expr -> bool)
    requires |fs| >= 2 && SameOperator(fs, fs[0].operator)
    ensures Combine(fs, op).Ok?
    ensures var m := Means(Combine(fs, op).value, sat);
            if Fields(fs) == [] then m == (Paragraphs(fs) == [] || Joined(op, Paragraphs(fs), sat))
            else if Paragraphs(fs) == [] then m == Joined(op, Fields(fs), sat)
            else if fs[0].operator == AndOp then m == (Joined(op, Fields(fs), sat) && Joined(op, Paragraphs(fs), sat))
            else m == (Joined(op, Fields(fs), sat) || Joined(op, Paragraphs(fs), sat))
  {
    hide Accepts, Means, Joined;
    GroupMeans(op, Fields(fs), sat);
    GroupMeans(op, Paragraphs(fs), sat);
    OneMeans(Combine(fs, op).value, sat);
    NoSides(Combine(fs, op).value, sat);
  }

  lemma NoSides(f: FilterExpression, sat: Expr -> bool)
    ensures !HasSide(f) ==> Means(f, sat) && Given(f.field) == [] && Given(f.paragraph) == []
  {
  }

  /** Combining means its operator in these cases; `CombineMeansExactly` shows that there are
      no others. */
  lemma CombineMeans(fs: seq<FilterExpression>, op: Operator, sat: Expr -> bool)
    requires CanCombine(fs, op)
    ensures Combine(fs, op).Ok?
    ensures Means(Combine(fs, op).value, sat) <==> JointlyMean(fs, op, sat)
  {
    hide Accepts, Means;
    if |fs| == 1 {
      assert AllMean(fs[1..], sat) && !AnyMeans(fs[1..], sat);
    } else {
      SidedIsEnough(fs, sat);
      if op == AndOp && |Sided(fs)| == 1 {
        OneSidedMeans(fs, sat);
      } else {
        CombinedSides(fs, op, sat);
        SidesMean(fs, fs[0].operator, sat);
        if Sided(fs) != [] && op == OrOp { SomeSide(fs); }
      }
    }
  }

  lemma OneSidedMeans(fs: seq<FilterExpression>, sat: Expr -> bool)
    requires |fs| >= 2 && SameOperator(fs, fs[0].operator) && |Sided(fs)| == 1
    ensures Means(Combine(fs, AndOp).value, sat) <==> AllMean(fs, sat)
  {
    hide Means;
    SidedIsEnough(fs, sat);
    var f := Sided(fs)[0];
    assert f in Sided(fs) && Sided(fs) == [f] && [f][1..] == [];
    assert Fields([f]) == Given(f.field) && Paragraphs([f]) == Given(f.paragraph);
    assert Combine(fs, AndOp).value == f;
  }

  lemma SomeSide(fs: seq<FilterExpression>)
    requires fs != [] && forall f :: f in fs ==> HasSide(f)
    ensures Fields(fs) != [] || Paragraphs(fs) != []
  {
    assert fs[0] in fs;
  }

  lemma TwoJoined(op: Operator, d: Expr, e: Expr, sat: Expr -> bool)
    ensures Joined(op, [d, e], sat) == if op == AndOp then Accepts(d, sat) && Accepts(e, sat) else Accepts(d, sat) || Accepts(e, sat)
  {
    hide Accepts;
    assert [d, e][1..] == [e];
    OneOperand(e, sat);
  }

  // ---- Building ----

  type Synonyms = map<string, seq<string>>

  /** Every keyword, each followed by its synonyms. */
  function Words(keywords: seq<string>, synonyms: Synonyms): seq<string> {
    if keywords == [] then []
    else
      var last := keywords[|keywords| - 1];
      Words(keywords[..|keywords| - 1], synonyms) + [last] + if Text.Lower(last) in synonyms then synonyms[Text.Lower(last)] else []
  }

  function KeywordExprs(words: seq<string>): (r: seq<Expr>)
    ensures |r| == |words| && forall i :: 0 <= i < |r| ==> r[i] == Keyword(words[i])
  {
    seq(|words|, i requires 0 <= i < |words| => Keyword(words[i]))
  }

  function ResourceExprs(ids: seq<string>): (r: seq<Expr>)
    ensures |r| == |ids| && forall i :: 0 <= i < |r| ==> r[i] == Resource(ids[i])
  {
    seq(|ids|, i requires 0 <= i < |ids| => Resource(ids[i]))
  }

  /** `_to_field_filter_expression`: filters the parser does not know are left out. */
  function Parsed(filters: seq<string>, parse: string -> Option<Expr>): seq<Expr> {
    if filters == [] then [] else Parsed(filters[..|filters| - 1], parse) + Given(parse(filters[|filters| - 1]))
  }

  function OptionList<T>(v: Option<seq<T>>): seq<T> { if v.Some? then v.value else [] }

  /** What a query brings: the caller's filters and the driver's. */
  datatype Request = Request(
    keywords: seq<string>, resources: Option<seq<string>>, driverFilters: seq<string>,
    andFilters: Option<seq<string>>, orFilters: Option<seq<string>>,
    caller: Option<FilterExpression>, driver: Option<FilterExpression>)

  function Operands(words: seq<string>, q: Request, parse: string -> Option<Expr>): seq<Expr> {
    Given(Group(OrOp, KeywordExprs(words))) +
    (if q.resources.Some? then [Or(ResourceExprs(q.resources.value))] else []) +
    Given(Group(AndOp, Parsed(q.driverFilters, parse))) +
    Given(Group(AndOp, Parsed(OptionList(q.andFilters), parse))) +
    Given(Group(OrOp, Parsed(OptionList(q.orFilters), parse)))
  }

  function AndOperands(q: Request, synonyms: Synonyms, parse: string -> Option<Expr>): seq<Expr> {
    Operands(Words(q.keywords, synonyms), q, parse)
  }

  function Expressions(q: Request, operands: seq<Expr>): seq<FilterExpression> {
    var own := Group(AndOp, operands);
    (if own.Some? then [FilterExpression(own, None, AndOp)] else []) +
    (if q.caller.Some? then [q.caller.value] else []) + (if q.driver.Some? then [q.driver.value] else [])
  }

  function ToCombine(q: Request, synonyms: Synonyms, parse: string -> Option<Expr>): seq<FilterExpression> {
    Expressions(q, AndOperands(q, synonyms, parse))
  }

  /** `build_filter_expression` */
  function Build(q: Request, synonyms: Synonyms, parse: string -> Option<Expr>): Result<Option<FilterExpression>, Error> {
    var fs := ToCombine(q, synonyms, parse);
    if fs == [] then Ok(None)
    else
      var combined :- Combine(fs, AndOp);
      Ok(Some(combined))
  }

  // ---- What the built filter accepts ----

  /** The document matches a keyword or a synonym of one. */
  predicate MatchesKeyword(keywords: seq<string>, synonyms: Synonyms, sat: Expr -> bool) {
    exists k :: k in keywords &&
      (sat(Keyword(k)) || (Text.Lower(k) in synonyms && exists s :: s in synonyms[Text.Lower(k)] && sat(Keyword(s))))
  }

  predicate MatchesAll(filters: seq<string>, parse: string -> Option<Expr>, sat: Expr -> bool) {
    forall f :: f in filters && parse(f).Some? ==> Accepts(parse(f).value, sat)
  }

  predicate MatchesAny(filters: seq<string>, parse: string -> Option<Expr>, sat: Expr -> bool) {
    exists f :: f in filters && parse(f).Some? && Accepts(parse(f).value, sat)
  }

  /** What the caller and the driver ask of a document, group by group. A group nobody gave,
      or of which nothing could be parsed, asks nothing. */
  predicate Wanted(q: Request, synonyms: Synonyms, parse: string -> Option<Expr>, sat: Expr -> bool) {
    && (q.keywords == [] || MatchesKeyword(q.keywords, synonyms, sat))
    && (q.resources.Some? ==> exists id :: id in q.resources.value && sat(Resource(id)))
    && MatchesAll(q.driverFilters, parse, sat)
    && MatchesAll(OptionList(q.andFilters), parse, sat)
    && ((exists f :: f in OptionList(q.orFilters) && parse(f).Some?) ==> MatchesAny(OptionList(q.orFilters), parse, sat))
    && (q.caller.Some? ==> Means(q.caller.value, sat))
    && (q.driver.Some? ==> Means(q.driver.value, sat))
  }

  lemma {:induction false} AllEach(es: seq<Expr>, e: Expr, sat: Expr -> bool)
    requires All(es, sat) && e in es
    ensures Accepts(e, sat)
    decreases |es|
  {
    if e != es[0] {
      AllEach(es[1..], e, sat);
    }
  }

  lemma {:induction false} AllFrom(es: seq<Expr>, sat: Expr -> bool)
    requires forall e :: e in es ==> Accepts(e, sat)
    ensures All(es, sat)
    decreases |es|
  {
    if es != [] {
      assert es[0] in es;
      AllFrom(es[1..], sat);
    }
  }

  lemma {:induction false} AnyFrom(es: seq<Expr>, e: Expr, sat: Expr -> bool)
    requires e in es && Accepts(e, sat)
    ensures Any(es, sat)
    decreases |es|
  {
    if e != es[0] {
      AnyFrom(es[1..], e, sat);
    }
  }

  lemma {:induction false} AnyEach(es: seq<Expr>, sat: Expr -> bool) returns (e: Expr)
    requires Any(es, sat)
    ensures e in es && Accepts(e, sat)
    decreases |es|
  {
    if Accepts(es[0], sat) {
      e := es[0]; } else { e := AnyEach(es[1..], sat);
    }
  }

  lemma AnyIs(es: seq<Expr>, sat: Expr -> bool)
    ensures Any(es, sat) <==> exists e :: e in es && Accepts(e, sat)
    ensures All(es, sat) <==> forall e :: e in es ==> Accepts(e, sat)
  {
    hide Accepts, Any, All;
    if Any(es, sat) {
      var e := AnyEach(es, sat);
    }
    forall e | e in es && Accepts(e, sat) ensures Any(es, sat) {
      AnyFrom(es, e, sat);
    }
    if All(es, sat) {
      forall e | e in es ensures Accepts(e, sat) {
        AllEach(es, e, sat);
      }
    }
    if forall e :: e in es ==> Accepts(e, sat) {
      AllFrom(es, sat);
    }
  }

  lemma {:induction false} WordsMean(keywords: seq<string>, synonyms: Synonyms, sat: Expr -> bool)
    ensures (exists w :: w in Words(keywords, synonyms) && sat(Keyword(w))) <==> MatchesKeyword(keywords, synonyms, sat)
    ensures Words(keywords, synonyms) == [] <==> keywords == []
  {
    hide Text.Lower;
    if keywords != [] {
      var n := |keywords| - 1;
      WordsMean(keywords[..n], synonyms, sat);
      assert keywords == keywords[..n] + [keywords[n]];
      var more := if Text.Lower(keywords[n]) in synonyms then synonyms[Text.Lower(keywords[n])] else [];
      assert forall w :: w in Words(keywords, synonyms) <==> w in Words(keywords[..n], synonyms) || w == keywords[n] || w in more;
    }
  }

  lemma KeywordGroupMeans(keywords: seq<string>, synonyms: Synonyms, sat: Expr -> bool)
    ensures All(Given(Group(OrOp, KeywordExprs(Words(keywords, synonyms)))), sat) <==>
            keywords == [] || MatchesKeyword(keywords, synonyms, sat)
  {
    hide Words, MatchesKeyword, Group, All, Any;
    var words := Words(keywords, synonyms);
    var es := KeywordExprs(words);
    WordsMean(keywords, synonyms, sat);
    GroupMeans(OrOp, es, sat);
    GivenMeans(Group(OrOp, es), sat);
    AnyIs(es, sat);
    assert (exists e :: e in es && Accepts(e, sat)) <==> (exists w :: w in words && sat(Keyword(w))) by {
      forall w | w in words && sat(Keyword(w)) ensures exists e :: e in es && Accepts(e, sat) {
        var i :| 0 <= i < |words| && words[i] == w;
        assert es[i] in es && Accepts(es[i], sat);
      }
    }
    GroupIsNone(OrOp, es);
  }

  lemma GroupIsNone(op: Operator, es: seq<Expr>)
    ensures Group(op, es).None? <==> es == []
  {
  }

  lemma ResourceGroupMeans(ids: seq<string>, sat: Expr -> bool)
    ensures All([Or(ResourceExprs(ids))], sat) <==> exists id :: id in ids && sat(Resource(id))
  {
    hide Any;
    var es := ResourceExprs(ids);
    assert [Or(es)][1..] == [];
    assert All([Or(es)], sat) == Any(es, sat);
    AnyIs(es, sat);
    forall id | id in ids && sat(Resource(id)) ensures exists e :: e in es && Accepts(e, sat) {
      var i :| 0 <= i < |ids| && ids[i] == id;
      assert es[i] in es && Accepts(es[i], sat);
    }
  }

  lemma {:induction false} ParsedAre(filters: seq<string>, parse: string -> Option<Expr>)
    ensures forall e :: e in Parsed(filters, parse) <==> exists f :: f in filters && parse(f) == Some(e)
    ensures Parsed(filters, parse) == [] <==> forall f :: f in filters ==> parse(f).None?
  {
    if filters != [] {
      var n := |filters| - 1;
      ParsedAre(filters[..n], parse);
      assert filters == filters[..n] + [filters[n]];
    }
  }

  lemma ParsedGroupMeans(op: Operator, filters: seq<string>, parse: string -> Option<Expr>, sat: Expr -> bool)
    ensures All(Given(Group(op, Parsed(filters, parse))), sat) <==>
            if op == AndOp then MatchesAll(filters, parse, sat)
            else (exists f :: f in filters && parse(f).Some?) ==> MatchesAny(filters, parse, sat)
  {
    hide Group, Accepts, Parsed, All, Any;
    var es := Parsed(filters, parse);
    ParsedAre(filters, parse);
    GroupIsNone(op, es);
    GroupMeans(op, es, sat);
    GivenMeans(Group(op, es), sat);
    AnyIs(es, sat);
    assert (forall e :: e in es ==> Accepts(e, sat)) <==> MatchesAll(filters, parse, sat) by {
      forall f | f in filters && parse(f).Some? ensures parse(f).value in es {
      }
    }
    assert (exists e :: e in es && Accepts(e, sat)) <==> MatchesAny(filters, parse, sat) by {
      forall f | f in filters && parse(f).Some? ensures parse(f).value in es {
      }
    }
  }

  lemma OperandsMean(q: Request, synonyms: Synonyms, parse: string -> Option<Expr>, sat: Expr -> bool)
    ensures All(AndOperands(q, synonyms, parse), sat) <==>
            && (q.keywords == [] || MatchesKeyword(q.keywords, synonyms, sat))
            && (q.resources.Some? ==> exists id :: id in q.resources.value && sat(Resource(id)))
            && MatchesAll(q.driverFilters, parse, sat)
            && MatchesAll(OptionList(q.andFilters), parse, sat)
            && ((exists f :: f in OptionList(q.orFilters) && parse(f).Some?) ==> MatchesAny(OptionList(q.orFilters), parse, sat))
  {
    hide Words, MatchesKeyword, MatchesAll, MatchesAny, Group, Parsed, OptionList, Given, KeywordExprs, ResourceExprs, Accepts;
    var a := Given(Group(OrOp, KeywordExprs(Words(q.keywords, synonyms))));
    var b := if q.resources.Some? then [Or(ResourceExprs(q.resources.value))] else [];
    var c := Given(Group(AndOp, Parsed(q.driverFilters, parse)));
    var d := Given(Group(AndOp, Parsed(OptionList(q.andFilters), parse)));
    var e := Given(Group(OrOp, Parsed(OptionList(q.orFilters), parse)));
    AllConcat(a, b, sat);
    AllConcat(a + b, c, sat);
    AllConcat(a + b + c, d, sat);
    AllConcat(a + b + c + d, e, sat);
    KeywordGroupMeans(q.keywords, synonyms, sat);
    if q.resources.Some? { ResourceGroupMeans(q.resources.value, sat); }
    ParsedGroupMeans(AndOp, q.driverFilters, parse, sat);
    ParsedGroupMeans(AndOp, OptionList(q.andFilters), parse, sat);
    ParsedGroupMeans(OrOp, OptionList(q.orFilters), parse, sat);
  }

  /** The requests whose expressions combine. */
  predicate CanBuild(q: Request, synonyms: Synonyms, parse: string -> Option<Expr>) {
    ToCombine(q, synonyms, parse) == [] || CanCombine(ToCombine(q, synonyms, parse), AndOp)
  }

  /** The filter, or its absence, accepts the document exactly if it is wanted. */
  predicate BuiltMeans(built: Option<FilterExpression>, q: Request, synonyms: Synonyms, parse: string -> Option<Expr>, sat: Expr -> bool) {
    (built.Some? ==> Means(built.value, sat)) <==> Wanted(q, synonyms, parse, sat)
  }

  /** The built filter accepts a document exactly when every group, the caller's expression
      and the driver's expression do; with nothing to ask there is no filter. */
  lemma BuildMeans(q: Request, synonyms: Synonyms, parse: string -> Option<Expr>, sat: Expr -> bool)
    requires CanBuild(q, synonyms, parse)
    ensures Build(q, synonyms, parse).Ok?
    ensures BuiltMeans(Build(q, synonyms, parse).value, q, synonyms, parse, sat)
  {
    hide ToCombine, CanCombine, Wanted, Combine, Means;
    var fs := ToCombine(q, synonyms, parse);
    WantedByAll(q, synonyms, parse, sat);
    if fs != [] {
      CombineMeans(fs, AndOp, sat);
    }
  }

  lemma WantedByAll(q: Request, synonyms: Synonyms, parse: string -> Option<Expr>, sat: Expr -> bool)
    ensures AllMean(ToCombine(q, synonyms, parse), sat) <==> Wanted(q, synonyms, parse, sat)
  {
    hide AndOperands, MatchesKeyword, MatchesAll, MatchesAny, OptionList, Accepts, Group, Means;
    OperandsMean(q, synonyms, parse, sat);
    var operands := AndOperands(q, synonyms, parse);
    GroupMeans(AndOp, operands, sat);
    GroupIsNone(AndOp, operands);
    ToCombineMeans(Group(AndOp, operands), q.caller, q.driver, sat);
  }

  lemma ToCombineMeans(own: Option<Expr>, caller: Option<FilterExpression>, driver: Option<FilterExpression>, sat: Expr -> bool)
    ensures var fs := (if own.Some? then [FilterExpression(own, None, AndOp)] else []) +
                      (if caller.Some? then [caller.value] else []) + (if driver.Some? then [driver.value] else []);
            AllMean(fs, sat) <==>
              && (own.Some? ==> Accepts(own.value, sat)) && (caller.Some? ==> Means(caller.value, sat))
              && (driver.Some? ==> Means(driver.value, sat))
  {
    hide Accepts;
    var a := if own.Some? then [FilterExpression(own, None, AndOp)] else [];
    var b := if caller.Some? then [caller.value] else [];
    var c := if driver.Some? then [driver.value] else [];
    MeanConcat(a, b, sat);
    MeanConcat(a + b, c, sat);
    if own.Some? { OneIsMeant(a[0], sat); assert Means(a[0], sat) == Accepts(own.value, sat); }
    if caller.Some? { OneIsMeant(b[0], sat); }
    if driver.Some? { OneIsMeant(c[0], sat); }
  }

  lemma OneIsMeant(f: FilterExpression, sat: Expr -> bool)
    ensures AllMean([f], sat) == Means(f, sat)
  {
    assert [f][1..] == [];
  }

  lemma {:induction false} MeanConcat(a: seq<FilterExpression>, b: seq<FilterExpression>, sat: Expr -> bool)
    ensures AllMean(a + b, sat) == (AllMean(a, sat) && AllMean(b, sat))
    decreases |a|
  {
    hide Means;
    if a == [] {
      assert a + b == b;
    } else {
      assert (a + b)[1..] == a[1..] + b;
      MeanConcat(a[1..], b, sat);
    }
  }

  /** Building fails exactly when two expressions with different operators meet. */
  lemma BuildFails(q: Request, synonyms: Synonyms, parse: string -> Option<Expr>)
    ensures Build(q, synonyms, parse).Err? <==>
            exists f, g :: f in ToCombine(q, synonyms, parse) && g in ToCombine(q, synonyms, parse) && f.operator != g.operator
  {
    hide ToCombine, Fields, Paragraphs, Group;
    var fs := ToCombine(q, synonyms, parse);
    if fs != [] {
      assert fs[0] in fs;
    }
  }

  // ---- Catalog filters ----

  /** `combine_catalog_filter_expressions`, of the expressions' resource sides. */
  function CombineCatalog(es: seq<Expr>, op: Operator): Result<Expr, Error> {
    if es == [] then Err(NothingToCombine) else Ok(Group(op, es).value)
  }

  datatype CatalogRequest = CatalogRequest(
    filters: Option<seq<string>>, labels: Option<seq<string>>, labelsOperand: Operator,
    caller: Option<Expr>, driver: Option<Expr>)

  /** `build_catalog_filter_expression` */
  function BuildCatalog(q: CatalogRequest, parse: string -> Option<Expr>): Option<Expr> {
    var own := Given(Group(q.labelsOperand, Parsed(OptionList(q.labels), parse))) +
               Given(Group(AndOp, Parsed(OptionList(q.filters), parse)));
    var toCombine := Given(Group(AndOp, own)) + Given(q.caller) + Given(q.driver);
    if toCombine == [] then None else Some(CombineCatalog(toCombine, AndOp).value)
  }

  /** The built catalog filter accepts exactly what the labels, the filters, the caller's
      and the driver's expressions all accept. */
  lemma BuildCatalogMeans(q: CatalogRequest, parse: string -> Option<Expr>, sat: Expr -> bool)
    ensures (match BuildCatalog(q, parse) case None => true case Some(e) => Accepts(e, sat)) <==>
              && (if q.labelsOperand == AndOp then MatchesAll(OptionList(q.labels), parse, sat)
                  else (exists f :: f in OptionList(q.labels) && parse(f).Some?) ==> MatchesAny(OptionList(q.labels), parse, sat))
              && MatchesAll(OptionList(q.filters), parse, sat)
              && (q.caller.Some? ==> Accepts(q.caller.value, sat))
              && (q.driver.Some? ==> Accepts(q.driver.value, sat))
  {
    hide MatchesAll, MatchesAny, Group, Parsed, OptionList, Given, Accepts;
    var a := Given(Group(q.labelsOperand, Parsed(OptionList(q.labels), parse)));
    var b := Given(Group(AndOp, Parsed(OptionList(q.filters), parse)));
    ParsedGroupMeans(q.labelsOperand, OptionList(q.labels), parse, sat);
    ParsedGroupMeans(AndOp, OptionList(q.filters), parse, sat);
    AllConcat(a, b, sat);
    var own := Given(Group(AndOp, a + b));
    GivenGroup(a + b, sat);
    var c, d := Given(q.caller), Given(q.driver);
    GivenMeans(q.caller, sat);
    GivenMeans(q.driver, sat);
    AllConcat(own, c, sat);
    AllConcat(own + c, d, sat);
    GroupMeans(AndOp, own + c + d, sat);
    GroupIsNone(AndOp, own + c + d);
  }

  lemma GivenGroup(es: seq<Expr>, sat: Expr -> bool)
    ensures All(Given(Group(AndOp, es)), sat) == All(es, sat)
  {
    hide Accepts, Group;
    GroupMeans(AndOp, es, sat);
    GroupIsNone(AndOp, es);
    GivenMeans(Group(AndOp, es), sat);
  }

  // ---- The code as it runs ----

  /** `combine_filter_expressions` */
  method CombineFilterExpressions(expressions: seq<FilterExpression>, op: Operator) returns (r: Result<FilterExpression, Error>)
    ensures r == Combine(expressions, op)
  {
    hide Fields, Paragraphs;
    if |expressions| == 0 {
      return Err(NothingToCombine);
    } else if |expressions| == 1 {
      return Ok(expressions[0]);
    }
    var one := expressions[0];
    for i := 1 to |expressions|
      invariant SameOperator(expressions[..i], one.operator)
    {
      if one.operator != expressions[i].operator {
        assert expressions[i] in expressions;
        return Err(OperatorsDiffer);
      }
      assert expressions[..i + 1] == expressions[..i] + [expressions[i]];
    }
    assert expressions[..|expressions|] == expressions;
    var result := FilterExpression(None, None, one.operator);
    var fields := Fields(expressions);
    if |fields| > 1 {
      result := result.(field := Some(if op == AndOp then And(fields) else Or(fields)));
    } else if |fields| == 1 {
      result := result.(field := Some(fields[0]));
    }
    var paragraphs := Paragraphs(expressions);
    if |paragraphs| > 1 {
      result := result.(paragraph := Some(if op == AndOp then And(paragraphs) else Or(paragraphs)));
    } else if |paragraphs| == 1 {
      result := result.(paragraph := Some(paragraphs[0]));
    }
    return Ok(result);
  }

  class FilterBuilder {
    var synonyms: map<string, Synonyms>

    constructor ()
      ensures synonyms == map[]
    {
      synonyms := map[];
    }

    /** The keyword loop, with the source's synonyms fetched once. */
    method CollectWords(source: string, fetched: Synonyms, keywords: seq<string>) returns (words: seq<string>)
      modifies this
      ensures keywords == [] ==> synonyms == old(synonyms)
      ensures keywords != [] ==> synonyms == if source in old(synonyms) then old(synonyms) else old(synonyms)[source := fetched]
      ensures words == Words(keywords, if source in old(synonyms) then old(synonyms)[source] else fetched)
    {
      if keywords != [] && source !in synonyms {
        synonyms := synonyms[source := fetched];
      }
      words := [];
      for i := 0 to |keywords|
        invariant words == Words(keywords[..i], if source in old(synonyms) then old(synonyms)[source] else fetched)
      {
        assert keywords[..i + 1][..i] == keywords[..i];
        var lower := Text.Lower(keywords[i]);
        words := words + [keywords[i]];
        if lower in synonyms[source] {
          words := words + synonyms[source][lower];
        }
      }
      assert keywords[..|keywords|] == keywords;
    }

    /** `build_filter_expression` */
    method BuildFilterExpression(source: string, fetched: Synonyms, q: Request, parse: string -> Option<Expr>)
      returns (r: Result<Option<FilterExpression>, Error>)
      modifies this
      ensures r == Build(q, if source in old(synonyms) then old(synonyms)[source] else fetched, parse)
      ensures synonyms == if q.keywords == [] || source in old(synonyms) then old(synonyms) else old(synonyms)[source := fetched]
    {
      hide Words, Combine, AndOperands, Operands, Expressions;
      ghost var used := if source in synonyms then synonyms[source] else fetched;
      var words := CollectWords(source, fetched, q.keywords);
      var operands := CollectOperands(words, q, parse);
      OperandsOfWords(q, used, parse);
      var toCombine := CollectExpressions(operands, q);
      if toCombine == [] {
        return Ok(None);
      }
      var combined := CombineFilterExpressions(toCombine, AndOp);
      if combined.Err? {
        return Err(combined.error);
      }
      return Ok(Some(combined.value));
    }
  }

  lemma OperandsOfWords(q: Request, synonyms: Synonyms, parse: string -> Option<Expr>)
    ensures AndOperands(q, synonyms, parse) == Operands(Words(q.keywords, synonyms), q, parse)
  {
    hide Words, Operands;
  }

  /** `_to_field_filter_expression` and `_to_resource_filter_expression` */
  method ToFilterExpressions(filters: seq<string>, parse: string -> Option<Expr>) returns (expressions: seq<Expr>)
    ensures expressions == Parsed(filters, parse)
  {
    expressions := [];
    for i := 0 to |filters|
      invariant expressions == Parsed(filters[..i], parse)
    {
      assert filters[..i + 1][..i] == filters[..i];
      var expression := parse(filters[i]);
      if expression.Some? {
        expressions := expressions + [expression.value];
      }
    }
    assert filters[..|filters|] == filters;
  }

  method CollectOperands(words: seq<string>, q: Request, parse: string -> Option<Expr>) returns (operands: seq<Expr>)
    ensures operands == Operands(words, q, parse)
  {
    hide Parsed, Group;
    operands := Given(Group(OrOp, KeywordExprs(words)));
    if q.resources.Some? {
      operands := operands + [Or(ResourceExprs(q.resources.value))];
    }
    var filters := ToFilterExpressions(q.driverFilters, parse);
    operands := operands + Given(Group(AndOp, filters));
    filters := ToFilterExpressions(OptionList(q.andFilters), parse);
    operands := operands + Given(Group(AndOp, filters));
    filters := ToFilterExpressions(OptionList(q.orFilters), parse);
    operands := operands + Given(Group(OrOp, filters));
  }

  method CollectExpressions(operands: seq<Expr>, q: Request) returns (toCombine: seq<FilterExpression>)
    ensures toCombine == Expressions(q, operands)
  {
    hide Group;
    var own := Group(AndOp, operands);
    toCombine := [];
    if own.Some? {
      toCombine := toCombine + [FilterExpression(own, None, AndOp)];
    }
    if q.caller.Some? {
      toCombine := toCombine + [q.caller.value];
    }
    if q.driver.Some? {
      toCombine := toCombine + [q.driver.value];
    }
  }
}
