/** Combining filter expressions means what its operator says in no other cases than those
    of `CanCombine`: in all others some document tells the two apart, whatever the shape. */
module FilterExact {
  import opened Wrappers
  import opened Filters
  import Text

  // ---- Expressions of a shape, with sides that have nothing to do with each other ----

  predicate IsAtom(e: Expr) { e.Keyword? || e.Resource? || e.Other? }

  function Side(f: FilterExpression, field: bool): Option<Expr> { if field then f.field else f.paragraph }

  predicate AtomsDiffer(fs: seq<FilterExpression>) {
    && (forall f, s :: f in fs && Side(f, s).Some? ==> IsAtom(Side(f, s).value))
    && forall i, j, s, t :: 0 <= i < |fs| && 0 <= j < |fs| && Side(fs[i], s).Some? && Side(fs[i], s) == Side(fs[j], t) ==>
         i == j && s == t
  }

  lemma {:induction false} SidesAre(fs: seq<FilterExpression>)
    ensures forall e :: e in Fields(fs) <==> exists i :: 0 <= i < |fs| && Side(fs[i], true) == Some(e)
    ensures forall e :: e in Paragraphs(fs) <==> exists i :: 0 <= i < |fs| && Side(fs[i], false) == Some(e)
    decreases |fs|
  {
    if fs != [] {
      var rest := fs[1..];
      SidesAre(rest);
      assert forall i :: 0 <= i < |rest| ==> rest[i] == fs[i + 1];
      assert forall e :: (exists i :: 0 <= i < |rest| && Side(rest[i], true) == Some(e)) ==>
               exists i :: 0 <= i < |fs| && Side(fs[i], true) == Some(e);
      assert forall e :: (exists i :: 0 <= i < |rest| && Side(rest[i], false) == Some(e)) ==>
               exists i :: 0 <= i < |fs| && Side(fs[i], false) == Some(e);
    }
  }

  lemma {:induction false} MeanEach(fs: seq<FilterExpression>, sat: Expr -> bool)
    ensures AllMean(fs, sat) <==> forall f :: f in fs ==> Means(f, sat)
    ensures AnyMeans(fs, sat) <==> exists f :: f in fs && Means(f, sat)
    decreases |fs|
  {
    hide Means;
    if fs != [] {
      MeanEach(fs[1..], sat);
      assert fs == [fs[0]] + fs[1..];
    }
  }

  /** The document that has just these atoms. */
  function Meets(accepted: set<Expr>): Expr -> bool { e => e in accepted }

  predicate InAll(es: seq<Expr>, accepted: set<Expr>) { forall e :: e in es ==> e in accepted }

  predicate InAny(es: seq<Expr>, accepted: set<Expr>) { exists e :: e in es && e in accepted }

  /** Of sides that are atoms, exactly the chosen ones accept. */
  lemma AtomsJoined(op: Operator, es: seq<Expr>, accepted: set<Expr>)
    requires forall e :: e in es ==> IsAtom(e)
    ensures Joined(op, es, Meets(accepted)) == if op == AndOp then InAll(es, accepted) else InAny(es, accepted)
  {
    hide Any, All;
    AnyIs(es, Meets(accepted));
  }

  /** What one component with atoms for sides means. */
  lemma ComponentMeans(f: FilterExpression, accepted: set<Expr>)
    requires forall s :: Side(f, s).Some? ==> IsAtom(Side(f, s).value)
    ensures Means(f, Meets(accepted)) <==>
            if Side(f, true).None? then Side(f, false).Some? ==> Side(f, false).value in accepted
            else if Side(f, false).None? then Side(f, true).value in accepted
            else if f.operator == AndOp then Side(f, true).value in accepted && Side(f, false).value in accepted
            else Side(f, true).value in accepted || Side(f, false).value in accepted
  {
    var d, e := Side(f, true), Side(f, false);
    if d.Some? && e.Some? {
      TwoJoined(f.operator, d.value, e.value, Meets(accepted));
    }
  }

  // ---- The document that tells them apart ----

  /** The combined expression and its components differ on a document. */
  predicate TellsApart(fs: seq<FilterExpression>, op: Operator, accepted: set<Expr>) {
    Combine(fs, op).Ok? && !(Means(Combine(fs, op).value, Meets(accepted)) <==> JointlyMean(fs, op, Meets(accepted)))
  }

  /** Several components with atoms for sides, both kinds of which occur. */
  predicate Mixed(fs: seq<FilterExpression>, op: Operator) {
    && |fs| >= 2 && AtomsDiffer(fs) && SameOperator(fs, fs[0].operator) && op != fs[0].operator
    && Fields(fs) != [] && Paragraphs(fs) != []
  }

  /** What combining means for such components, on a document that meets the atoms of a set. */
  lemma MixedMeans(fs: seq<FilterExpression>, op: Operator, accepted: set<Expr>)
    requires Mixed(fs, op)
    ensures TellsApart(fs, op, accepted) <==>
            if op == AndOp then
              !((InAll(Fields(fs), accepted) || InAll(Paragraphs(fs), accepted)) <==> forall f :: f in fs ==> Means(f, Meets(accepted)))
            else
              !((InAny(Fields(fs), accepted) && InAny(Paragraphs(fs), accepted)) <==> exists f :: f in fs && Means(f, Meets(accepted)))
  {
    hide Means, Fields, Paragraphs, Combine, InAll, InAny, AllMean, AnyMeans, Joined;
    CombinedSides(fs, op, Meets(accepted));
    SidesAre(fs);
    AtomsJoined(op, Fields(fs), accepted);
    AtomsJoined(op, Paragraphs(fs), accepted);
    MeanEach(fs, Meets(accepted));
  }

  /** A component with one side only: what the other sides accept tells them apart. */
  lemma LoneSideTells(fs: seq<FilterExpression>, op: Operator, i: nat, s: bool) returns (accepted: set<Expr>)
    requires Mixed(fs, op) && i < |fs| && Side(fs[i], s).Some? && Side(fs[i], !s).None?
    ensures TellsApart(fs, op, accepted)
  {
    hide Means, Fields, Paragraphs, TellsApart;
    var own, others := if s then Fields(fs) else Paragraphs(fs), if s then Paragraphs(fs) else Fields(fs);
    accepted := if op == AndOp then set e | e in others else {Side(fs[i], s).value};
    SidesAre(fs);
    MixedMeans(fs, op, accepted);
    ComponentMeans(fs[i], accepted);
    assert Side(fs[i], s).value !in others;
    assert fs[i] in fs;
  }

  /** No component has just one side. */
  predicate Paired(fs: seq<FilterExpression>) {
    forall i :: 0 <= i < |fs| ==> (Side(fs[i], true).Some? <==> Side(fs[i], false).Some?)
  }

  /** The field of one pair and the paragraphs of all others meet every component, but
      neither all fields nor all paragraphs. */
  lemma AndTells(fs: seq<FilterExpression>, i: nat, j: nat) returns (accepted: set<Expr>)
    requires Mixed(fs, AndOp) && Paired(fs) && i < |fs| && j < |fs| && i != j && HasSide(fs[i]) && HasSide(fs[j])
    ensures TellsApart(fs, AndOp, accepted)
  {
    hide Means, Fields, Paragraphs, TellsApart, Meets, InAny, IsAtom;
    var x, y := Side(fs[i], true).value, Side(fs[i], false).value;
    accepted := {x} + (set e | e in Paragraphs(fs)) - {y};
    SidesAre(fs);
    MixedMeans(fs, AndOp, accepted);
    forall k | 0 <= k < |fs| ensures Means(fs[k], Meets(accepted)) {
      ComponentMeans(fs[k], accepted);
    }
    assert !InAll(Fields(fs), accepted) by { assert Side(fs[j], true).value in Fields(fs); }
    assert !InAll(Paragraphs(fs), accepted) by { assert y in Paragraphs(fs) && y !in accepted; }
  }

  /** The field of one pair and the paragraph of another meet no component, but a field and
      a paragraph. */
  lemma OrTells(fs: seq<FilterExpression>, i: nat, j: nat) returns (accepted: set<Expr>)
    requires Mixed(fs, OrOp) && Paired(fs) && i < |fs| && j < |fs| && i != j
    requires forall k :: 0 <= k < |fs| ==> HasSide(fs[k])
    ensures TellsApart(fs, OrOp, accepted)
  {
    hide Means, Fields, Paragraphs, TellsApart, Meets;
    var x, y := Side(fs[i], true).value, Side(fs[j], false).value;
    accepted := {x, y};
    SidesAre(fs);
    MixedMeans(fs, OrOp, accepted);
    forall k | 0 <= k < |fs| ensures !Means(fs[k], Meets(accepted)) {
      ComponentMeans(fs[k], accepted);
    }
    assert x in Fields(fs) && y in Paragraphs(fs);
  }

  /** A component that filters nothing makes "or" accept everything, which the others' sides do not. */
  lemma NoSideTells(fs: seq<FilterExpression>, f: FilterExpression)
    requires |fs| >= 2 && AtomsDiffer(fs) && SameOperator(fs, fs[0].operator)
    requires f in fs && !HasSide(f) && Sided(fs) != []
    ensures TellsApart(fs, OrOp, {})
  {
    hide Means, Fields, Paragraphs, Combine, AllMean, AnyMeans, Joined;
    CombinedSides(fs, OrOp, Meets({}));
    SidesAre(fs);
    AtomsJoined(OrOp, Fields(fs), {});
    AtomsJoined(OrOp, Paragraphs(fs), {});
    MeanEach(fs, Meets({}));
    NoSides(f, Meets({}));
    SomeSided(fs);
  }

  lemma SomeSided(fs: seq<FilterExpression>)
    requires Sided(fs) != []
    ensures Fields(fs) != [] || Paragraphs(fs) != []
  {
    SidedIsEnough(fs, e => true);
    SomeSide(Sided(fs));
  }

  lemma {:induction false} TwoSided(fs: seq<FilterExpression>) returns (i: nat, j: nat)
    requires |Sided(fs)| >= 2
    ensures i < j < |fs| && HasSide(fs[i]) && HasSide(fs[j])
    decreases |fs|
  {
    if HasSide(fs[0]) {
      var f := Sided(fs[1..])[0];
      assert f in Sided(fs[1..]);
      var k :| 0 <= k < |fs[1..]| && fs[1..][k] == f;
      i, j := 0, k + 1;
    } else {
      i, j := TwoSided(fs[1..]);
      i, j := i + 1, j + 1;
    }
  }

  /** Outside `CanCombine`, combining fails or some document tells it from its components. */
  lemma SomeDocumentTells(fs: seq<FilterExpression>, op: Operator) returns (accepted: set<Expr>)
    requires AtomsDiffer(fs) && !CanCombine(fs, op)
    ensures Combine(fs, op).Err? || TellsApart(fs, op, accepted)
  {
    hide Means, Fields, Paragraphs, TellsApart, AtomsDiffer, Sided;
    accepted := {};
    if fs == [] || !SameOperator(fs, fs[0].operator) {
    } else if op == OrOp && exists f :: f in fs && !HasSide(f) {
      var f :| f in fs && !HasSide(f);
      NoSideTells(fs, f);
    } else if i, s :| 0 <= i < |fs| && Side(fs[i], s).Some? && Side(fs[i], !s).None? {
      accepted := LoneSideTells(fs, op, i, s);
    } else {
      if op == AndOp {
        var i, j := TwoSided(fs);
        accepted := AndTells(fs, i, j);
      } else {
        accepted := OrTells(fs, 0, 1);
      }
    }
  }

  /** Combining components whose sides have nothing to do with each other means the operator
      for every document if and only if `CanCombine`. */
  lemma CombineMeansExactly(fs: seq<FilterExpression>, op: Operator)
    requires AtomsDiffer(fs)
    ensures CanCombine(fs, op) <==>
            Combine(fs, op).Ok? && forall sat: Expr -> bool :: Means(Combine(fs, op).value, sat) <==> JointlyMean(fs, op, sat)
  {
    hide Means, CanCombine, AtomsDiffer, Combine, JointlyMean;
    if CanCombine(fs, op) {
      forall sat: Expr -> bool ensures Combine(fs, op).Ok? && (Means(Combine(fs, op).value, sat) <==> JointlyMean(fs, op, sat)) {
        CombineMeans(fs, op, sat);
      }
      CombineMeans(fs, op, e => true);
    } else {
      var accepted := SomeDocumentTells(fs, op);
    }
  }

  // ---- Built filters ----

  /** Building a filter means what is wanted of every document if and only if the request's
      expressions combine; whatever the caller's and the driver's expressions filter by. */
  lemma BuildMeansExactly(q: Request, synonyms: Synonyms, parse: string -> Option<Expr>)
    requires q.caller.Some? && q.driver.Some? ==> AtomsDiffer([q.caller.value, q.driver.value])
    ensures CanBuild(q, synonyms, parse) <==>
            && Build(q, synonyms, parse).Ok?
            && forall sat: Expr -> bool :: BuiltMeans(Build(q, synonyms, parse).value, q, synonyms, parse, sat)
  {
    hide CanCombine, AtomsDiffer, Combine, Wanted, Means, ToCombine;
    var fs := ToCombine(q, synonyms, parse);
    if CanBuild(q, synonyms, parse) {
      BuildMeans(q, synonyms, parse, e => true);
      forall sat: Expr -> bool ensures BuiltMeans(Build(q, synonyms, parse).value, q, synonyms, parse, sat) {
        BuildMeans(q, synonyms, parse, sat);
      }
    } else if Combine(fs, AndOp).Ok? {
      OnlyExpressions(q, synonyms, parse);
      var accepted := SomeDocumentTells(fs, AndOp);
      WantedByAll(q, synonyms, parse, Meets(accepted));
      assert !BuiltMeans(Build(q, synonyms, parse).value, q, synonyms, parse, Meets(accepted));
    }
  }

  /** Expressions that do not combine are the caller's and the driver's alone. */
  lemma OnlyExpressions(q: Request, synonyms: Synonyms, parse: string -> Option<Expr>)
    requires var fs := ToCombine(q, synonyms, parse); fs != [] && !CanCombine(fs, AndOp) && Combine(fs, AndOp).Ok?
    ensures q.caller.Some? && q.driver.Some? && ToCombine(q, synonyms, parse) == [q.caller.value, q.driver.value]
  {
    hide AndOperands, Group, Sided, Fields, Paragraphs;
  }

  /** A caller and a driver whose expressions join their sides with "or", and no other filter:
      the built filter rejects a document both want. */
  lemma BuildLosesDocuments(f: string, p: string, synonyms: Synonyms, parse: string -> Option<Expr>)
    requires f != p
    ensures var q := Request([], None, [], None, None,
                             Some(FilterExpression(Some(Keyword(f)), Some(Keyword(p)), OrOp)),
                             Some(FilterExpression(Some(Keyword(p)), Some(Keyword(f)), OrOp)));
            var sat := (e: Expr) => e == Keyword(f);
            && Wanted(q, synonyms, parse, sat)
            && Build(q, synonyms, parse).Ok? && Build(q, synonyms, parse).value.Some?
            && !Means(Build(q, synonyms, parse).value.value, sat)
  {
    hide Text.Lower;
    var a := FilterExpression(Some(Keyword(f)), Some(Keyword(p)), OrOp);
    var b := FilterExpression(Some(Keyword(p)), Some(Keyword(f)), OrOp);
    var sat := (e: Expr) => e == Keyword(f);
    var q := Request([], None, [], None, None, Some(a), Some(b));
    assert ToCombine(q, synonyms, parse) == [a, b];
    assert [a, b][1..] == [b] && [b][1..] == [];
    assert Fields([b]) == [Keyword(p)] && Paragraphs([b]) == [Keyword(f)];
    assert Fields([a, b]) == [Keyword(f), Keyword(p)] && Paragraphs([a, b]) == [Keyword(p), Keyword(f)];
    CombinedSides([a, b], AndOp, sat);
    TwoJoined(AndOp, Keyword(f), Keyword(p), sat);
    TwoJoined(AndOp, Keyword(p), Keyword(f), sat);
    TwoJoined(OrOp, Keyword(f), Keyword(p), sat);
    TwoJoined(OrOp, Keyword(p), Keyword(f), sat);
  }

  // ---- The two sides ----

  /** All filters of one side: the request's own are on the field side. */
  function SideFilters(q: Request, operands: seq<Expr>, field: bool): seq<Expr> {
    (if field then operands else []) +
    (if q.caller.Some? then Given(Side(q.caller.value, field)) else []) +
    (if q.driver.Some? then Given(Side(q.driver.value, field)) else [])
  }

  lemma {:induction false} SidesConcat(a: seq<FilterExpression>, b: seq<FilterExpression>)
    ensures Fields(a + b) == Fields(a) + Fields(b) && Paragraphs(a + b) == Paragraphs(a) + Paragraphs(b)
    decreases |a|
  {
    hide Given;
    if a == [] {
      assert a + b == b;
    } else {
      assert (a + b)[1..] == a[1..] + b;
      SidesConcat(a[1..], b);
    }
  }

  lemma OneSides(f: FilterExpression)
    ensures Fields([f]) == Given(f.field) && Paragraphs([f]) == Given(f.paragraph)
  {
    assert [f][1..] == [];
  }

  lemma ExpressionSides(q: Request, operands: seq<Expr>)
    ensures Fields(Expressions(q, operands)) == SideFilters(q, Given(Group(AndOp, operands)), true)
    ensures Paragraphs(Expressions(q, operands)) == SideFilters(q, [], false)
  {
    hide Given, Group, Fields, Paragraphs;
    var own := Group(AndOp, operands);
    var a := if own.Some? then [FilterExpression(own, None, AndOp)] else [];
    var b := if q.caller.Some? then [q.caller.value] else [];
    var c := if q.driver.Some? then [q.driver.value] else [];
    SidesConcat(a, b);
    SidesConcat(a + b, c);
    assert Fields([]) == [] && Paragraphs([]) == [] by { NoSidesAtAll(); }
    assert Given(None) == [] by { GivenNothing(); }
    if own.Some? { OneSides(a[0]); }
    if q.caller.Some? { OneSides(b[0]); }
    if q.driver.Some? { OneSides(c[0]); }
    if own.None? { assert Given(own) == []; }
  }

  lemma NoSidesAtAll()
    ensures Fields([]) == [] && Paragraphs([]) == []
  {
  }

  lemma GivenNothing()
    ensures Given(None) == []
  {
  }

  /** A combined expression has a side exactly if some component has, and it is all of them. */
  lemma CombinedSide(fs: seq<FilterExpression>, field: bool, sat: Expr -> bool)
    requires Combine(fs, AndOp).Ok?
    ensures var side, sides := Side(Combine(fs, AndOp).value, field), if field then Fields(fs) else Paragraphs(fs);
            (side.Some? <==> sides != []) && (side.Some? ==> (Accepts(side.value, sat) <==> All(sides, sat)))
  {
    hide Accepts, All, Fields, Paragraphs, Given;
    GroupMeans(AndOp, Fields(fs), sat);
    GroupMeans(AndOp, Paragraphs(fs), sat);
    if |fs| == 1 {
      assert fs == [fs[0]];
      OneSides(fs[0]);
      GivenMeans(Side(fs[0], field), sat);
      GivenSome(Side(fs[0], field));
    }
  }

  lemma GivenSome(e: Option<Expr>)
    ensures Given(e) != [] <==> e.Some?
  {
  }

  /** A built filter keeps the sides apart: its field side is the request's own filters with the
      caller's and the driver's field filters, its paragraph side their paragraph filters. */
  lemma BuildKeepsSides(q: Request, synonyms: Synonyms, parse: string -> Option<Expr>, sat: Expr -> bool)
    requires Build(q, synonyms, parse).Ok? && Build(q, synonyms, parse).value.Some?
    ensures var f := Build(q, synonyms, parse).value.value;
            var operands := AndOperands(q, synonyms, parse);
            && (f.field.Some? <==> SideFilters(q, operands, true) != [])
            && (f.field.Some? ==> (Accepts(f.field.value, sat) <==> All(SideFilters(q, operands, true), sat)))
            && (f.paragraph.Some? <==> SideFilters(q, [], false) != [])
            && (f.paragraph.Some? ==> (Accepts(f.paragraph.value, sat) <==> All(SideFilters(q, [], false), sat)))
  {
    hide Accepts, All, Fields, Paragraphs, Given, Group, Combine, AndOperands, Side, Expressions;
    var operands := AndOperands(q, synonyms, parse);
    var fs := ToCombine(q, synonyms, parse);
    CombinedSide(fs, true, sat);
    CombinedSide(fs, false, sat);
    ExpressionSides(q, operands);
    SidesOf(Combine(fs, AndOp).value);
    OwnFilters(operands, sat);
    var b := if q.caller.Some? then Given(Side(q.caller.value, true)) else [];
    var c := if q.driver.Some? then Given(Side(q.driver.value, true)) else [];
    AllConcat(operands, b, sat);
    AllConcat(operands + b, c, sat);
    AllConcat(Given(Group(AndOp, operands)), b, sat);
    AllConcat(Given(Group(AndOp, operands)) + b, c, sat);
  }

  lemma SidesOf(f: FilterExpression)
    ensures Side(f, true) == f.field && Side(f, false) == f.paragraph
  {
  }

  lemma OwnFilters(operands: seq<Expr>, sat: Expr -> bool)
    ensures All(Given(Group(AndOp, operands)), sat) == All(operands, sat)
    ensures Given(Group(AndOp, operands)) == [] <==> operands == []
  {
    hide Accepts;
    GivenGroup(operands, sat);
    GroupIsNone(AndOp, operands);
  }
}
