/** Worked runs of the decomposer on small token sequences. Each sequence is
    given position by position, and the identifiers are parameters, so each
    lemma covers every choice of names. */
module ScanExamples {
  import opened Tokens
  import opened Graph
  import opened Scanner
  import opened BodyProps
  import opened DecomposeProps

  const Ws: Token := Tok(Whitespace, " ")
  const Fn: Token := Tok(Function, "function")

  /** `function a(){}function b(){}` */
  predicate AdjacentDeclarations(ts: seq<Token>, a: string, b: string)
  {
    && |ts| == 14
    && ts[0] == Fn && ts[1] == Ws && ts[2] == Tok(Identifier, a) && ts[3] == Char('(') && ts[4] == Char(')')
    && ts[5] == Char('{') && ts[6] == Char('}')
    && ts[7] == Fn && ts[8] == Ws && ts[9] == Tok(Identifier, b) && ts[10] == Char('(') && ts[11] == Char(')')
    && ts[12] == Char('{') && ts[13] == Char('}')
  }

  lemma FirstOfAdjacent(ts: seq<Token>, a: string, b: string)
    requires AdjacentDeclarations(ts, a, b)
    ensures GetMethod(ts, 0, NoType, Initial(map[])) == Run(Ok, 7, Declare(Initial(map[]), a, NoType))
  {
    PlainDeclaration(ts, 0, NoType, Initial(map[]));
    EmptyBody(ts, 5, a, Declare(Initial(map[]), a, NoType));
  }

  /** The token after a's `}` is skipped, so the second declaration is never read. */
  lemma AdjacentDeclarationSkipped(ts: seq<Token>, a: string, b: string)
    requires AdjacentDeclarations(ts, a, b)
    ensures Decompose(ts, map[]) == Run(Ok, 14, Tables(map[a := []], map[a := NoType], map[]))
  {
    var g0 := Initial(map[]);
    var g1 := Declare(g0, a, NoType);
    AtFunction(ts, 0, NoType, g0);
    FirstOfAdjacent(ts, a, b);
    ResumeOk(ts, Run(Ok, 7, g1));
    RestOfAdjacent(ts, a, b, g1);
  }

  /** From the token after `function` onwards the second declaration holds no `function` token. */
  lemma RestOfAdjacent(ts: seq<Token>, a: string, b: string, g: Tables)
    requires AdjacentDeclarations(ts, a, b)
    ensures DecomposeFrom(ts, 8, NoType, g) == Run(Ok, 14, g)
  {
    forall k | 8 <= k < 14
      ensures !IsToken(ts[k], Function)
    {
      assert k in {8, 9, 10, 11, 12, 13};
    }
    NoFunctionLeft(ts, 8, NoType, g);
  }

  /** `function f();` */
  predicate AbstractDeclaration(ts: seq<Token>, f: string)
  {
    && |ts| == 6
    && ts[0] == Fn && ts[1] == Ws && ts[2] == Tok(Identifier, f) && ts[3] == Char('(') && ts[4] == Char(')')
    && ts[5] == Char(';')
  }

  /** No `{` follows the declaration, where the source never returns. */
  lemma MissingBody(ts: seq<Token>, f: string)
    requires AbstractDeclaration(ts, f)
    ensures Decompose(ts, map[]) == Run(NoOpeningBrace, 6, Declare(Initial(map[]), f, NoType))
  {
    assert NextNonWhitespace(ts, 0) == NextNonWhitespace(ts, 1) == 2;
    assert FindOpenBrace(ts, 4) == 6;
    assert FindOpenBrace(ts, 2) == FindOpenBrace(ts, 3) == 6;
    AtFunction(ts, 0, NoType, Initial(map[]));
  }

  /** `function f(){ {` */
  predicate UnclosedDeclaration(ts: seq<Token>, f: string)
  {
    && |ts| == 8
    && ts[0] == Fn && ts[1] == Ws && ts[2] == Tok(Identifier, f) && ts[3] == Char('(') && ts[4] == Char(')')
    && ts[5] == Char('{') && ts[6] == Ws && ts[7] == Char('{')
  }

  /** The body ends with the balance still positive: "Bad brace balance!". */
  lemma UnclosedBody(ts: seq<Token>, f: string)
    requires UnclosedDeclaration(ts, f)
    ensures Decompose(ts, map[]).status == BadBraceBalance
  {
    var g0 := Initial(map[]);
    var g1 := Declare(g0, f, NoType);
    PlainDeclaration(ts, 0, NoType, g0);
    var s1 := BodyState(1, Idle, g1);
    assert ScanFrom(ts, 5, BodyState(0, Idle, g1), f) == ScanFrom(ts, 6, s1, f);
    assert ScanFrom(ts, 6, s1, f) == ScanFrom(ts, 7, s1, f);
    AtFunction(ts, 0, NoType, g0);
  }

  /** `private $x; function f(){}` */
  predicate PropertyThenMethod(ts: seq<Token>, x: string, f: string)
  {
    && |ts| == 12
    && ts[0] == Tok(Private, "private") && ts[1] == Ws && ts[2] == Tok(Variable, x) && ts[3] == Char(';')
    && ts[4] == Ws && ts[5] == Fn && ts[6] == Ws && ts[7] == Tok(Identifier, f) && ts[8] == Char('(')
    && ts[9] == Char(')') && ts[10] == Char('{') && ts[11] == Char('}')
  }

  /** The keyword of a property declaration is still pending when `function`
      comes, so f is typed "private". */
  lemma PropertyKeywordCarriesOver(ts: seq<Token>, x: string, f: string)
    requires PropertyThenMethod(ts, x, f)
    ensures Decompose(ts, map[]) == Run(Ok, 12, Declare(Initial(map[]), f, TypeText("private")))
  {
    var g0 := Initial(map[]);
    var p := TypeText("private");
    PendingVisibility(ts, 0, 5, NoType, g0);
    PlainDeclaration(ts, 5, p, g0);
    EmptyBody(ts, 10, f, Declare(g0, f, p));
  }

  /** `{ $this->callee(); }` at b: one call is recorded and the scan ends just after the `}`. */
  lemma CallingBody(ts: seq<Token>, b: nat, caller: string, callee: string, g: Tables)
    requires b + 9 < |ts| && ts[b] == Char('{') && ts[b + 1] == Ws
    requires ts[b + 2] == Tok(Variable, "$this") && ts[b + 3] == Tok(ObjectOperator, "->")
    requires ts[b + 4] == Tok(Identifier, callee) && ts[b + 5] == Char('(') && ts[b + 6] == Char(')')
    requires ts[b + 7] == Char(';') && ts[b + 8] == Ws && ts[b + 9] == Char('}')
    ensures ParseMethod(ts, b, caller, g) == Run(Ok, b + 10, RecordCall(g, caller, callee))
  {
    var s := BodyState(1, Idle, g);
    assert ScanFrom(ts, b, BodyState(0, Idle, g), caller) == ScanFrom(ts, b + 1, s, caller);
    InertToken(ts, b + 1, s, caller);
    CallSiteRecorded(ts, b + 2, s, caller);
    var s1 := BodyState(1, Idle, RecordCall(g, caller, callee));
    InertToken(ts, b + 6, s1, caller);
    InertToken(ts, b + 7, s1, caller);
    InertToken(ts, b + 8, s1, caller);
    assert ScanFrom(ts, b + 9, s1, caller) == Scan(b + 10, BodyState(0, Idle, s1.graph));
  }

  /** `{ $this->property; }` at b: one access is recorded and the scan ends just after the `}`. */
  lemma AccessingBody(ts: seq<Token>, b: nat, caller: string, property: string, g: Tables)
    requires b + 7 < |ts| && ts[b] == Char('{') && ts[b + 1] == Ws
    requires ts[b + 2] == Tok(Variable, "$this") && ts[b + 3] == Tok(ObjectOperator, "->")
    requires ts[b + 4] == Tok(Identifier, property) && ts[b + 5] == Char(';')
    requires ts[b + 6] == Ws && ts[b + 7] == Char('}')
    ensures ParseMethod(ts, b, caller, g) == Run(Ok, b + 8, RecordAccess(g, caller, property))
  {
    var s := BodyState(1, Idle, g);
    assert ScanFrom(ts, b, BodyState(0, Idle, g), caller) == ScanFrom(ts, b + 1, s, caller);
    InertToken(ts, b + 1, s, caller);
    AccessSiteRecorded(ts, b + 2, s, caller);
    var s1 := BodyState(1, Idle, RecordAccess(g, caller, property));
    InertToken(ts, b + 6, s1, caller);
    assert ScanFrom(ts, b + 7, s1, caller) == Scan(b + 8, BodyState(0, Idle, s1.graph));
  }

  /** `public function a(){ $this->b(); } ` from position 0 */
  predicate CallingHalf(ts: seq<Token>, a: string, b: string)
  {
    && |ts| > 18
    && ts[0] == Tok(Public, "public") && ts[1] == Ws && ts[2] == Fn && ts[3] == Ws && ts[4] == Tok(Identifier, a)
    && ts[5] == Char('(') && ts[6] == Char(')') && ts[7] == Char('{') && ts[8] == Ws
    && ts[9] == Tok(Variable, "$this") && ts[10] == Tok(ObjectOperator, "->") && ts[11] == Tok(Identifier, b)
    && ts[12] == Char('(') && ts[13] == Char(')') && ts[14] == Char(';') && ts[15] == Ws && ts[16] == Char('}')
    && ts[17] == Ws
  }

  /** `private function b(){ $this->x; } ` from position 18 to the end */
  predicate AccessingHalf(ts: seq<Token>, b: string, x: string)
  {
    && |ts| == 34
    && ts[18] == Tok(Private, "private") && ts[19] == Ws && ts[20] == Fn && ts[21] == Ws && ts[22] == Tok(Identifier, b)
    && ts[23] == Char('(') && ts[24] == Char(')') && ts[25] == Char('{') && ts[26] == Ws
    && ts[27] == Tok(Variable, "$this") && ts[28] == Tok(ObjectOperator, "->") && ts[29] == Tok(Identifier, x)
    && ts[30] == Char(';') && ts[31] == Ws && ts[32] == Char('}') && ts[33] == Ws
  }

  /** `public function a(){ $this->b(); } private function b(){ $this->x; } ` */
  predicate CallThenAccess(ts: seq<Token>, a: string, b: string, x: string)
  {
    CallingHalf(ts, a, b) && AccessingHalf(ts, b, x)
  }

  /** A visibility keyword, one whitespace token, then `function`: the
      declaration is read with the keyword's text. */
  lemma KeywordThenFunction(ts: seq<Token>, i: nat, pending: MethodType, g: Tables)
    requires i + 2 < |ts| && IsVisibility(ts[i]) && IsToken(ts[i + 1], Whitespace) && IsToken(ts[i + 2], Function)
    ensures DecomposeFrom(ts, i, pending, g) == ResumeAfter(ts, GetMethod(ts, i + 2, TypeText(ts[i].text), g))
  {
    var p := TypeText(ts[i].text);
    AtOther(ts, i, pending, g);
    AtOther(ts, i + 1, p, g);
    AtFunction(ts, i + 2, p, g);
  }

  /** The first declaration: a is typed "public" and records its call to b. */
  lemma CallingMethod(ts: seq<Token>, a: string, b: string)
    requires CallingHalf(ts, a, b)
    ensures Decompose(ts, map[])
         == DecomposeFrom(ts, 18, NoType, RecordCall(Declare(Initial(map[]), a, TypeText("public")), a, b))
  {
    var g0 := Initial(map[]);
    var ga := Declare(g0, a, TypeText("public"));
    KeywordThenFunction(ts, 0, NoType, g0);
    PlainDeclaration(ts, 2, TypeText("public"), g0);
    CallingBody(ts, 7, a, b, ga);
    ResumeOk(ts, Run(Ok, 17, RecordCall(ga, a, b)));
  }

  /** The second declaration: b is typed "private" and records its access to x. */
  lemma AccessingMethod(ts: seq<Token>, b: string, x: string, g: Tables)
    requires AccessingHalf(ts, b, x)
    ensures DecomposeFrom(ts, 18, NoType, g) == Run(Ok, 34, RecordAccess(Declare(g, b, TypeText("private")), b, x))
  {
    var gb := Declare(g, b, TypeText("private"));
    KeywordThenFunction(ts, 18, NoType, g);
    PlainDeclaration(ts, 20, TypeText("private"), g);
    AccessingBody(ts, 25, b, x, gb);
  }

  /** The tables these two bodies leave: a calls b, b was first typed
      "inherited" by that call and then redeclared "private", and b reads x. */
  lemma CallThenAccessTables(a: string, b: string, x: string)
    requires a != b
    ensures var g1 := RecordCall(Declare(Initial(map[]), a, TypeText("public")), a, b);
      RecordAccess(Declare(g1, b, TypeText("private")), b, x)
      == Tables(map[a := [b], b := []], map[a := TypeText("public"), b := TypeText("private")], map[x := [b]])
  {
    var ga := Declare(Initial(map[]), a, TypeText("public"));
    assert ga == Tables(map[a := []], map[a := TypeText("public")], map[]);
    assert Lookup(ga.methodsList, a) + [b] == [b];
    var g1 := RecordCall(ga, a, b);
    assert g1 == Tables(map[a := [b]], map[a := TypeText("public"), b := Inherited], map[]);
    var gb := Declare(g1, b, TypeText("private"));
    assert gb == Tables(map[a := [b], b := []], map[a := TypeText("public"), b := TypeText("private")], map[]);
    assert Lookup(gb.variableList, x) + [b] == [b];
  }

  /** A whole run of that class: the call and the access are both recorded,
      and b's later declaration replaces the "inherited" its call gave it. */
  lemma CallThenAccessRecorded(ts: seq<Token>, a: string, b: string, x: string)
    requires CallThenAccess(ts, a, b, x) && a != b
    ensures Decompose(ts, map[])
         == Run(Ok, 34, Tables(map[a := [b], b := []], map[a := TypeText("public"), b := TypeText("private")], map[x := [b]]))
  {
    var g1 := RecordCall(Declare(Initial(map[]), a, TypeText("public")), a, b);
    CallingMethod(ts, a, b);
    AccessingMethod(ts, b, x, g1);
    CallThenAccessTables(a, b, x);
  }
}
