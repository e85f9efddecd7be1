/** The tree of agent steps the workflow editor shows and changes, addressed by the
    printed paths of its canvas nodes. */
module WorkflowTree {
  import opened Wrappers
  import Text

  // ---- Trees ----

  datatype Step = Step(fields: map<string, Value>)

  /** What a field of a step holds: one step, an array of steps, or something else,
      which JavaScript takes for true or for false. */
  datatype Value = One(step: Step) | Many(steps: seq<Step>) | Data(text: string) | Falsy(nullish: bool)

  const CONNECTABLE_KEYS: seq<string> := ["fallback", "next_agent", "then", "else_", "agents", "registered_agents"]
  const STAGE_ORDER: seq<string> := ["preprocess", "context", "generation", "postprocess"]

  predicate IsListKey(key: string) { key != "fallback" && key != "next_agent" }

  // ---- Paths ----

  datatype Index = Star | At(i: int) | NotANumber

  datatype Segment = Segment(key: string, idx: Index)

  type Path = seq<Segment>

  function TrimStart(s: string): string {
    if s != "" && s[0] in " \t\n\r" then TrimStart(s[1..]) else s
  }

  /** `parseInt(s, 10)`: a sign and the digits the text starts with. */
  function ParseInt(s: string): Index {
    var t := TrimStart(s);
    var signed := t != "" && (t[0] == '-' || t[0] == '+');
    var digits := Text.Digits(if signed then t[1..] else t);
    if digits == "" then NotANumber
    else if signed && t[0] == '-' then At(-(Text.ParseDecimal(digits) as int))
    else At(Text.ParseDecimal(digits))
  }

  function ParseIndex(s: string): Index { if s == "*" then Star else ParseInt(s) }

  /** The pairs of a split path; a key without an index gets none. */
  function Pairs(parts: seq<string>): Path {
    if parts == [] then []
    else if |parts| == 1 then [Segment(parts[0], NotANumber)]
    else [Segment(parts[0], ParseIndex(parts[1]))] + Pairs(parts[2..])
  }

  /** `parsePath` */
  function Parse(nodeId: string): Path { Pairs(Text.Split(nodeId, ':')) }

  function IndexText(idx: Index): string
    requires Printable(idx)
  {
    match idx case Star => "*" case At(i) => Text.ToDecimal(i)
  }

  predicate Printable(idx: Index) { idx.Star? || (idx.At? && idx.i >= 0) }

  predicate IsPrintable(path: Path) {
    forall s :: s in path ==> ':' !in s.key && Printable(s.idx)
  }

  function Parts(path: Path): (r: seq<string>)
    requires IsPrintable(path)
    ensures |r| == 2 * |path| && forall p :: p in r ==> ':' !in p
  {
    if path == [] then []
    else
      assert path[0] in path && forall s :: s in path[1..] ==> s in path;
      ColonFree(path[0].idx);
      [path[0].key, IndexText(path[0].idx)] + Parts(path[1..])
  }

  lemma ColonFree(idx: Index)
    requires Printable(idx)
    ensures ':' !in IndexText(idx)
  {
    assert !Text.IsDigit(':');
  }

  /** The node id of a path: what the collectors and `addChild` print. */
  function Print(path: Path): string
    requires IsPrintable(path)
  {
    Text.Join(Parts(path), ':')
  }

  lemma {:induction false} DigitsOfNumeral(s: string)
    requires Text.AllDigits(s)
    ensures Text.Digits(s) == s
  {
    if s != "" {
      DigitsOfNumeral(s[1..]);
    }
  }

  lemma IndexRoundTrip(idx: Index)
    requires Printable(idx)
    ensures ParseIndex(IndexText(idx)) == idx
  {
    match idx
    case Star =>
    case At(i) =>
      var s := Text.ToDecimal(i);
      assert !Text.IsDigit(' ') && !Text.IsDigit('-') && !Text.IsDigit('+') && !Text.IsDigit('*');
      assert Text.IsDigit(s[0]);
      assert TrimStart(s) == s;
      DigitsOfNumeral(s);
      Text.ParseToDecimal(i);
  }

  lemma {:induction false} PairsRoundTrip(path: Path)
    requires IsPrintable(path)
    ensures Pairs(Parts(path)) == path
  {
    if path != [] {
      assert path[0] in path && forall s :: s in path[1..] ==> s in path;
      IndexRoundTrip(path[0].idx);
      PairsRoundTrip(path[1..]);
      assert Parts(path)[2..] == Parts(path[1..]);
    }
  }

  /** Parsing a node id gives back the path it was printed from. */
  lemma PathRoundTrip(path: Path)
    requires path != [] && IsPrintable(path)
    ensures Parse(Print(path)) == path
  {
    Text.SplitJoin(Parts(path), ':');
    PairsRoundTrip(path);
  }

  lemma PrintInjective(p: Path, q: Path)
    requires p != [] && q != [] && IsPrintable(p) && IsPrintable(q) && Print(p) == Print(q)
    ensures p == q
  {
    PathRoundTrip(p);
    PathRoundTrip(q);
  }

  // ---- Looking up ----

  predicate Truthy(v: Value) { !v.Falsy? }

  /** `array[index]`, of an array of steps. */
  function Item(v: Value, idx: Index): Option<Value> {
    if v.Many? && idx.At? && 0 <= idx.i < |v.steps| then Some(One(v.steps[idx.i])) else None
  }

  /** One segment below a step. */
  function Child(v: Value, seg: Segment): Option<Value> {
    if !v.One? || seg.key !in v.step.fields then None
    else if seg.idx == Star then if Truthy(v.step.fields[seg.key]) then Some(v.step.fields[seg.key]) else None
    else Item(v.step.fields[seg.key], seg.idx)
  }

  function Walk(v: Value, path: Path): Option<Value>
    decreases |path|
  {
    if path == [] then Some(v)
    else match Child(v, path[0])
      case None => None
      case Some(c) => Walk(c, path[1..])
  }

  function Top(wf: Step, seg: Segment): Option<Value> {
    if seg.key in wf.fields then Item(wf.fields[seg.key], seg.idx) else None
  }

  /** `getStepByPath` */
  function Get(wf: Step, path: Path): Option<Value> {
    if path == [] then None
    else match Top(wf, path[0])
      case None => None
      case Some(v) => Walk(v, path[1..])
  }

  // ---- Changing ----

  datatype Change = Merge(updates: map<string, Value>) | Delete | Attach(link: string, moduleId: string)

  /** The code throws, or leaves the tree in a shape that has no value here: an array
      with holes, or with properties that are not elements. */
  datatype Fault = Throws | Unrepresented

  type Outcome<T> = Result<T, Fault>

  function NewStep(moduleId: string): Step { Step(map["module" := Data(moduleId)]) }

  /** The body of `addChild`'s mutator. */
  function AttachTo(step: Step, link: string, moduleId: string): Outcome<Step> {
    var child := NewStep(moduleId);
    if !IsListKey(link) then Ok(Step(step.fields[link := One(child)]))
    else if link !in step.fields || step.fields[link] == Falsy(true) then Ok(Step(step.fields[link := Many([child])]))
    else match step.fields[link]
      case Many(steps) => Ok(Step(step.fields[link := Many(steps + [child])]))
      case Data(_) => Err(Unrepresented)
      case _ => Err(Throws)
  }

  /** `splice(idx, 1)`: a negative index counts from the end, no number counts as 0. */
  function Splice(steps: seq<Step>, idx: Index): seq<Step> {
    var i := if !idx.At? then 0 else if idx.i >= 0 then idx.i else if |steps| + idx.i >= 0 then |steps| + idx.i else 0;
    if i < |steps| then steps[..i] + steps[i + 1..] else steps
  }

  /** A change to an element of a list container. */
  function ChangeItem(v: Value, idx: Index, change: Change): Outcome<Value> {
    match change
    case Merge(updates) =>
      if v.Many? && idx.At? && 0 <= idx.i < |v.steps| then
        Ok(Many(v.steps[idx.i := Step(v.steps[idx.i].fields + updates)]))
      else if v.Many? && idx == At(|v.steps|) then Ok(Many(v.steps + [Step(updates)]))
      else Err(Unrepresented)
    case Delete => if v.Many? then Ok(Many(Splice(v.steps, idx))) else if v.One? then Err(Throws) else Err(Unrepresented)
    case Attach(link, moduleId) =>
      if v.Many? && idx.At? && 0 <= idx.i < |v.steps| then
        var step :- AttachTo(v.steps[idx.i], link, moduleId);
        Ok(Many(v.steps[idx.i := step]))
      else if v.Data? then Err(Unrepresented) else Err(Throws)
  }

  /** A change to a single-valued link of a step: the key's new value, if it keeps one. */
  function ChangeLink(v: Value, change: Change): Outcome<Option<Value>> {
    match change
    case Merge(updates) => if v.One? then Ok(Some(One(Step(v.step.fields + updates)))) else Err(Unrepresented)
    case Delete => Ok(None)
    case Attach(link, moduleId) =>
      if !v.One? then Err(Unrepresented) else
      var step :- AttachTo(v.step, link, moduleId);
      Ok(Some(One(step)))
  }

  function ChangeLast(step: Step, seg: Segment, change: Change): Outcome<Step> {
    if seg.key !in step.fields || !Truthy(step.fields[seg.key]) then Ok(step)
    else if seg.idx == Star then
      var v :- ChangeLink(step.fields[seg.key], change);
      Ok(Step(if v.Some? then step.fields[seg.key := v.value] else step.fields - {seg.key}))
    else
      var v :- ChangeItem(step.fields[seg.key], seg.idx, change);
      Ok(Step(step.fields[seg.key := v]))
  }

  /** The walk of `mutateStepByPath` below a step, and the change at its end. A path that
      leads nowhere changes nothing. */
  function ChangeBelow(step: Step, path: Path, change: Change): Outcome<Step>
    requires path != []
    decreases |path|
  {
    if |path| == 1 then ChangeLast(step, path[0], change) else
    match Child(One(step), path[0])
    case None => Ok(step)
    case Some(c) =>
      if !c.One? then Ok(step) else
      var below :- ChangeBelow(c.step, path[1..], change);
      Ok(Step(step.fields[path[0].key := PutBack(step.fields[path[0].key], path[0].idx, below)]))
  }

  function PutBack(v: Value, idx: Index, step: Step): Value {
    if v.Many? && idx.At? && 0 <= idx.i < |v.steps| then Many(v.steps[idx.i := step]) else One(step)
  }

  /** `mutateStepByPath`. The first step of a longer path is not checked. */
  function Mutate(wf: Step, path: Path, change: Change): Outcome<Step> {
    if path == [] || path[0].key !in wf.fields || !Truthy(wf.fields[path[0].key]) then Ok(wf)
    else if |path| == 1 then
      var v :- ChangeItem(wf.fields[path[0].key], path[0].idx, change);
      Ok(Step(wf.fields[path[0].key := v]))
    else match Top(wf, path[0])
      case None => if wf.fields[path[0].key].Data? then Err(Unrepresented) else Err(Throws)
      case Some(v) =>
        var below :- ChangeBelow(v.step, path[1..], change);
        Ok(Step(wf.fields[path[0].key := PutBack(wf.fields[path[0].key], path[0].idx, below)]))
  }
}
