/** The scan of Class2GV.php as functions of the token sequence: the body
    scanner (`parseMethod`), the declaration reader (`getMethod` with
    `findOpenMethodBrace`) and the top-level decomposer (`decomposeClass`).
    A position is an index into the token sequence; position |ts| stands for
    PHP's array pointer once `next()` has run past the last token. */
module Scanner {
  import opened Tokens
  import opened Graph

  /** `Ok`, the "Bad brace balance!" exception, or a declaration with no `{`
      after it (where `findOpenMethodBrace` never returns). */
  datatype Status = Ok | BadBraceBalance | NoOpeningBrace

  /** The outcome of a scan: its status, where the cursor stands afterwards and
      the tables as they are at that point. */
  datatype Run = Run(status: Status, pos: nat, graph: Tables)

  // ---------------------------------------------------------------- body scanner

  /** Brace balance change of one token: `{`, T_CURLY_OPEN and
      T_DOLLAR_OPEN_CURLY_BRACES open, `}` closes. */
  function Delta(t: Token): (d: int)
    ensures -1 <= d <= 1
    ensures d == 1 <==> t == Char('{') || IsStringBrace(t)
    ensures d == -1 <==> t == Char('}')
  {
    if t == Char('{') then 1
    else if IsStringBrace(t) then 1
    else if t == Char('}') then -1
    else 0
  }

  /** The states 0..3 of `findCallStatus`; `SawName` carries `$methodOrVariable`. */
  datatype Detector = Idle | SawThis | SawArrow | SawName(name: string)

  datatype Edge = NoEdge | CallEdge(callee: string) | AccessEdge(property: string)

  datatype Transition = Transition(next: Detector, edge: Edge)

  /** One step of the `$this -> name` detector on a non-whitespace token. */
  function Detect(d: Detector, t: Token): (r: Transition)
    // an edge is emitted exactly when a name has been captured, and then the detector restarts
    ensures r.edge != NoEdge <==> d.SawName?
    ensures d.SawName? ==> r.next == Idle
    ensures d.SawName? ==> r.edge == (if t == Char('(') then CallEdge(d.name) else AccessEdge(d.name))
    // each expected token advances the pattern
    ensures d == Idle && IsThis(t) ==> r == Transition(SawThis, NoEdge)
    ensures d == SawThis && IsToken(t, ObjectOperator) ==> r == Transition(SawArrow, NoEdge)
    ensures d == SawArrow && IsToken(t, Identifier) ==> r == Transition(SawName(t.text), NoEdge)
    // the pattern only advances one token at a time
    ensures r.next == SawThis ==> d == Idle && IsThis(t)
    ensures r.next == SawArrow ==> d == SawThis && IsToken(t, ObjectOperator)
    ensures r.next.SawName? ==> d == SawArrow && IsToken(t, Identifier) && r.next.name == t.text
    // no backtracking: a token that breaks a started pattern is not re-tested as a fresh `$this`
    ensures d != Idle && IsThis(t) ==> r.next == Idle
  {
    if d == Idle && IsThis(t) then Transition(SawThis, NoEdge)
    else if d == SawThis && IsToken(t, ObjectOperator) then Transition(SawArrow, NoEdge)
    else if d == SawArrow && IsToken(t, Identifier) then Transition(SawName(t.text), NoEdge)
    else if d.SawName? then
      Transition(Idle, if t == Char('(') then CallEdge(d.name) else AccessEdge(d.name))
    else Transition(Idle, NoEdge)
  }

  function Emit(g: Tables, caller: string, e: Edge): Tables
  {
    match e
    case NoEdge => g
    case CallEdge(callee) => RecordCall(g, caller, callee)
    case AccessEdge(property) => RecordAccess(g, caller, property)
  }

  /** The loop variables of `parseMethod`: `braceBalance`, `findCallStatus`
      (with `$methodOrVariable`) and the tables. */
  datatype BodyState = BodyState(depth: int, detector: Detector, graph: Tables)

  /** One pass of the loop body on token t: whitespace changes nothing. */
  function BodyStep(t: Token, s: BodyState, caller: string): BodyState
  {
    if IsToken(t, Whitespace) then s
    else
      var tr := Detect(s.detector, t);
      BodyState(s.depth + Delta(t), tr.next, Emit(s.graph, caller, tr.edge))
  }

  datatype Scan = Scan(pos: nat, state: BodyState)

  /** The do-while loop of `parseMethod` from the token at i: process it,
      advance, and go on while the balance is positive and tokens remain. */
  function ScanFrom(ts: seq<Token>, i: nat, s: BodyState, caller: string): (r: Scan)
    requires i < |ts|
    ensures i < r.pos <= |ts|
    decreases |ts| - i
  {
    var s' := BodyStep(ts[i], s, caller);
    if s'.depth > 0 && i + 1 < |ts| then ScanFrom(ts, i + 1, s', caller)
    else Scan(i + 1, s')
  }

  /** `parseMethod($methodName)` with the cursor at `start`. */
  function ParseMethod(ts: seq<Token>, start: nat, caller: string, g: Tables): (r: Run)
    requires start < |ts|
    ensures start < r.pos <= |ts|
    ensures r.status != NoOpeningBrace
  {
    var sc := ScanFrom(ts, start, BodyState(0, Idle, g), caller);
    Run(if sc.state.depth != 0 then BadBraceBalance else Ok, sc.pos, sc.state.graph)
  }

  // ---------------------------------------------------------------- declaration reader

  /** Where the `do { next } while (whitespace)` loop of `getMethod` stops when
      started at i: the first non-whitespace token after i, or |ts| if none. */
  function NextNonWhitespace(ts: seq<Token>, i: nat): (j: nat)
    requires i < |ts|
    ensures i < j <= |ts|
    ensures j < |ts| ==> !IsToken(ts[j], Whitespace)
    decreases |ts| - i
  {
    if i + 1 >= |ts| then |ts|
    else if IsToken(ts[i + 1], Whitespace) then NextNonWhitespace(ts, i + 1)
    else i + 1
  }

  /** Everything `NextNonWhitespace` steps over is whitespace, and it is the
      only position with that property. */
  lemma {:induction false} NextNonWhitespaceIsFirst(ts: seq<Token>, i: nat, j: nat)
    requires i < |ts| && i < j <= |ts|
    ensures NextNonWhitespace(ts, i) == j
        <==> (j < |ts| ==> !IsToken(ts[j], Whitespace)) && forall k :: i < k < j ==> IsToken(ts[k], Whitespace)
    decreases |ts| - i
  {
    if i + 1 < |ts| && IsToken(ts[i + 1], Whitespace) && j > i + 1 {
      NextNonWhitespaceIsFirst(ts, i + 1, j);
    }
  }

  /** `$token[1]` for the token at j: the text of a pair, and "" for a bare
      character or for `false` past the end. */
  function NameAt(ts: seq<Token>, j: nat): string
  {
    if j < |ts| && ts[j].Tok? then ts[j].text else ""
  }

  /** Where `findOpenMethodBrace` stops when started at i: the first bare `{`
      after i, or |ts| if there is none (the source loops forever there). */
  function FindOpenBrace(ts: seq<Token>, i: nat): (j: nat)
    requires i <= |ts|
    ensures j <= |ts|
    ensures j < |ts| ==> i < j && ts[j] == Char('{')
    decreases |ts| - i
  {
    if i + 1 >= |ts| then |ts|
    else if ts[i + 1] == Char('{') then i + 1
    else FindOpenBrace(ts, i + 1)
  }

  /** `FindOpenBrace` passes over no `{`: if it returns |ts|, there is none after i. */
  lemma {:induction false} FindOpenBraceIsFirst(ts: seq<Token>, i: nat)
    requires i <= |ts|
    ensures forall k :: i < k < FindOpenBrace(ts, i) ==> ts[k] != Char('{')
    ensures FindOpenBrace(ts, i) == |ts| ==> forall k :: i < k < |ts| ==> ts[k] != Char('{')
    decreases |ts| - i
  {
    if i + 1 < |ts| && ts[i + 1] != Char('{') {
      FindOpenBraceIsFirst(ts, i + 1);
    }
  }

  /** `getMethod($methodType)` with the cursor on the `function` token at f. */
  function GetMethod(ts: seq<Token>, f: nat, methodType: MethodType, g: Tables): (r: Run)
    requires f < |ts|
    ensures f < r.pos <= |ts|
  {
    var n := NextNonWhitespace(ts, f);
    var name := NameAt(ts, n);
    var g1 := Declare(g, name, methodType);
    var b := FindOpenBrace(ts, n);
    if b == |ts| then Run(NoOpeningBrace, |ts|, g1)
    else ParseMethod(ts, b, name, g1)
  }

  // ---------------------------------------------------------------- top-level decomposer

  /** The do-while loop of `decomposeClass` from the token at i with the
      pending visibility `pending` (`$nextMethodType`). */
  function DecomposeFrom(ts: seq<Token>, i: nat, pending: MethodType, g: Tables): (r: Run)
    requires i < |ts|
    ensures r.pos <= |ts|
    ensures r.status == Ok ==> r.pos == |ts|
    decreases |ts| - i, 2
  {
    var t := ts[i];
    var pending' := if IsVisibility(t) then TypeText(t.text) else pending;
    if IsToken(t, Function) then DecomposeMethod(ts, i, pending', g)
    else if i + 1 < |ts| then DecomposeFrom(ts, i + 1, pending', g)
    else Run(Ok, |ts|, g)
  }

  /** The `T_FUNCTION` branch of that loop: `getMethod`, then the rest of the pass. */
  function DecomposeMethod(ts: seq<Token>, i: nat, pending: MethodType, g: Tables): (r: Run)
    requires i < |ts|
    ensures r.pos <= |ts|
    ensures r.status == Ok ==> r.pos == |ts|
    decreases |ts| - i, 1
  {
    ResumeAfter(ts, GetMethod(ts, i, pending, g))
  }

  /** The rest of the `T_FUNCTION` branch once `getMethod` has ended with m:
      an error ends the pass there; otherwise `$nextMethodType` is cleared and
      the loop goes on after the token that follows the body. */
  function ResumeAfter(ts: seq<Token>, m: Run): (r: Run)
    requires m.pos <= |ts|
    ensures r.pos <= |ts|
    ensures r.status == Ok ==> r.pos == |ts|
    decreases |ts| - m.pos, 0
  {
    if m.status != Ok then m
    else if m.pos + 1 < |ts| then DecomposeFrom(ts, m.pos + 1, NoType, m.graph)
    else Run(Ok, |ts|, m.graph)
  }

  /** After a declaration that reads without error and ends before the last
      token, the pass goes on at the token after the next one. */
  lemma ResumeOk(ts: seq<Token>, m: Run)
    requires m.status == Ok && m.pos + 1 < |ts|
    ensures ResumeAfter(ts, m) == DecomposeFrom(ts, m.pos + 1, NoType, m.graph)
  {
  }

  /** One pass of the top-level loop on a `function` token. */
  lemma AtFunction(ts: seq<Token>, i: nat, pending: MethodType, g: Tables)
    requires i < |ts| && IsToken(ts[i], Function)
    ensures DecomposeFrom(ts, i, pending, g) == ResumeAfter(ts, GetMethod(ts, i, pending, g))
  {
  }

  /** One pass of the top-level loop on any other token. */
  lemma AtOther(ts: seq<Token>, i: nat, pending: MethodType, g: Tables)
    requires i < |ts| && !IsToken(ts[i], Function)
    ensures var pending' := if IsVisibility(ts[i]) then TypeText(ts[i].text) else pending;
      DecomposeFrom(ts, i, pending, g)
      == if i + 1 < |ts| then DecomposeFrom(ts, i + 1, pending', g) else Run(Ok, |ts|, g)
  {
  }

  /** `decomposeClass` on the token sequence ts: `methodsType` and
      `variableList` start empty, `methodsList` keeps what it held before. */
  function Decompose(ts: seq<Token>, oldMethodsList: map<string, seq<string>>): (r: Run)
    ensures r.status == Ok ==> r.pos == |ts|
  {
    if |ts| == 0 then Run(Ok, 0, Initial(oldMethodsList))
    else DecomposeFrom(ts, 0, NoType, Initial(oldMethodsList))
  }
}
