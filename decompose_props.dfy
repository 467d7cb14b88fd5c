/** Properties of the declaration reader and the top-level decomposer, and of
    the tables they build. */
module DecomposeProps {
  import opened Tokens
  import opened Graph
  import opened Scanner
  import opened BodyProps

  // ---------------------------------------------------------------- the tables stay well formed

  lemma GetMethodPreserves(ts: seq<Token>, f: nat, methodType: MethodType, g: Tables)
    requires f < |ts| && WellFormed(g)
    ensures WellFormed(GetMethod(ts, f, methodType, g).graph)
  {
    var n := NextNonWhitespace(ts, f);
    var g1 := Declare(g, NameAt(ts, n), methodType);
    DeclarePreserves(g, NameAt(ts, n), methodType);
    var b := FindOpenBrace(ts, n);
    if b < |ts| {
      ScanPreserves(ts, b, BodyState(0, Idle, g1), NameAt(ts, n));
    }
  }

  lemma {:induction false} DecomposeFromPreserves(ts: seq<Token>, i: nat, pending: MethodType, g: Tables)
    requires i < |ts| && WellFormed(g)
    ensures WellFormed(DecomposeFrom(ts, i, pending, g).graph)
    decreases |ts| - i, 1
  {
    var t := ts[i];
    var pending' := if IsVisibility(t) then TypeText(t.text) else pending;
    if IsToken(t, Function) {
      AtFunction(ts, i, pending, g);
      GetMethodPreserves(ts, i, pending, g);
      ResumeAfterPreserves(ts, GetMethod(ts, i, pending, g));
    } else {
      AtOther(ts, i, pending, g);
      if i + 1 < |ts| {
        DecomposeFromPreserves(ts, i + 1, pending', g);
      }
    }
  }

  lemma {:induction false} ResumeAfterPreserves(ts: seq<Token>, m: Run)
    requires m.pos <= |ts| && WellFormed(m.graph)
    ensures WellFormed(ResumeAfter(ts, m).graph)
    decreases |ts| - m.pos, 0
  {
    if m.status == Ok && m.pos + 1 < |ts| {
      DecomposeFromPreserves(ts, m.pos + 1, NoType, m.graph);
    }
  }

  /** After a run that starts from empty tables, whether it succeeds or stops
      on an error: every caller and every recorded callee has a `methodsType`
      entry (an undeclared callee gets "inherited"), each property lists each
      accessing method at most once, and only declared methods are listed. */
  lemma DecomposeWellFormed(ts: seq<Token>)
    ensures WellFormed(Decompose(ts, map[]).graph)
  {
    if |ts| > 0 {
      DecomposeFromPreserves(ts, 0, NoType, Initial(map[]));
    }
  }

  // ---------------------------------------------------------------- repeated runs

  lemma GetMethodKeepsCallers(ts: seq<Token>, f: nat, methodType: MethodType, g: Tables)
    requires f < |ts|
    ensures g.methodsList.Keys <= GetMethod(ts, f, methodType, g).graph.methodsList.Keys
  {
    var n := NextNonWhitespace(ts, f);
    var g1 := Declare(g, NameAt(ts, n), methodType);
    var b := FindOpenBrace(ts, n);
    if b < |ts| {
      ScanFrame(ts, b, BodyState(0, Idle, g1), NameAt(ts, n));
    }
  }

  lemma {:induction false} DecomposeFromKeepsCallers(ts: seq<Token>, i: nat, pending: MethodType, g: Tables)
    requires i < |ts|
    ensures g.methodsList.Keys <= DecomposeFrom(ts, i, pending, g).graph.methodsList.Keys
    decreases |ts| - i, 1
  {
    var t := ts[i];
    var pending' := if IsVisibility(t) then TypeText(t.text) else pending;
    if IsToken(t, Function) {
      AtFunction(ts, i, pending, g);
      GetMethodKeepsCallers(ts, i, pending, g);
      ResumeAfterKeepsCallers(ts, GetMethod(ts, i, pending, g));
    } else {
      AtOther(ts, i, pending, g);
      if i + 1 < |ts| {
        DecomposeFromKeepsCallers(ts, i + 1, pending', g);
      }
    }
  }

  lemma {:induction false} ResumeAfterKeepsCallers(ts: seq<Token>, m: Run)
    requires m.pos <= |ts|
    ensures m.graph.methodsList.Keys <= ResumeAfter(ts, m).graph.methodsList.Keys
    decreases |ts| - m.pos, 0
  {
    if m.status == Ok && m.pos + 1 < |ts| {
      DecomposeFromKeepsCallers(ts, m.pos + 1, NoType, m.graph);
    }
  }

  /** `decomposeClass` resets `methodsType` and `variableList` but not
      `methodsList`: every caller an earlier run recorded is still there. */
  lemma EarlierCallersSurvive(ts: seq<Token>, earlier: map<string, seq<string>>)
    ensures earlier.Keys <= Decompose(ts, earlier).graph.methodsList.Keys
  {
    if |ts| > 0 {
      DecomposeFromKeepsCallers(ts, 0, NoType, Initial(earlier));
    }
  }

  /** So a second run on an object that was used before can leave callees
      without a type: here the stream is empty and the old edge a -> b stays. */
  lemma SecondRunCanLoseTypes()
    ensures !WellFormed(Decompose([], map["a" := ["b"]]).graph)
  {
    var g := Decompose([], map["a" := ["b"]]).graph;
    assert "b" in g.methodsList["a"];
  }

  // ---------------------------------------------------------------- what each scan reads

  lemma {:induction false} NextNonWhitespaceLocal(ts1: seq<Token>, ts2: seq<Token>, i: nat, hi: nat)
    requires i < |ts1| && AgreeOn(ts1, ts2, i + 1, hi)
    requires NextNonWhitespace(ts1, i) < hi || hi == |ts1|
    ensures NextNonWhitespace(ts2, i) == NextNonWhitespace(ts1, i)
    decreases |ts1| - i
  {
    if i + 1 < |ts1| && IsToken(ts1[i + 1], Whitespace) {
      NextNonWhitespaceLocal(ts1, ts2, i + 1, hi);
    }
  }

  lemma {:induction false} FindOpenBraceLocal(ts1: seq<Token>, ts2: seq<Token>, i: nat, hi: nat)
    requires i <= |ts1| && AgreeOn(ts1, ts2, i + 1, hi)
    requires FindOpenBrace(ts1, i) < hi || hi == |ts1|
    ensures FindOpenBrace(ts2, i) == FindOpenBrace(ts1, i)
    decreases |ts1| - i
  {
    if i + 1 < |ts1| && ts1[i + 1] != Char('{') {
      FindOpenBraceLocal(ts1, ts2, i + 1, hi);
    }
  }

  /** `getMethod` reads only the tokens after `function` and before where it leaves the cursor. */
  lemma GetMethodLocal(ts1: seq<Token>, ts2: seq<Token>, f: nat, methodType: MethodType, g: Tables)
    requires f < |ts1| && AgreeOn(ts1, ts2, f + 1, GetMethod(ts1, f, methodType, g).pos)
    ensures GetMethod(ts2, f, methodType, g) == GetMethod(ts1, f, methodType, g)
  {
    var r := GetMethod(ts1, f, methodType, g);
    var n := NextNonWhitespace(ts1, f);
    var b := FindOpenBrace(ts1, n);
    if b < |ts1| {
      assert n < b < r.pos;
    }
    NextNonWhitespaceLocal(ts1, ts2, f, r.pos);
    assert NameAt(ts2, n) == NameAt(ts1, n);
    FindOpenBraceLocal(ts1, ts2, n, r.pos);
    if b < |ts1| {
      ScanLocal(ts1, ts2, b, BodyState(0, Idle, Declare(g, NameAt(ts1, n), methodType)), NameAt(ts1, n));
    }
  }

  /** The top-level pass from position i reads only tokens at i and after. */
  lemma {:induction false} DecomposeFromLocal(ts1: seq<Token>, ts2: seq<Token>, i: nat, pending: MethodType, g: Tables)
    requires i < |ts1| && AgreeOn(ts1, ts2, i, |ts1|)
    ensures DecomposeFrom(ts2, i, pending, g) == DecomposeFrom(ts1, i, pending, g)
    decreases |ts1| - i, 1
  {
    var t := ts1[i];
    assert ts2[i] == t;
    var pending' := if IsVisibility(t) then TypeText(t.text) else pending;
    if IsToken(t, Function) {
      AtFunction(ts1, i, pending, g);
      AtFunction(ts2, i, pending, g);
      GetMethodLocal(ts1, ts2, i, pending, g);
      ResumeAfterLocal(ts1, ts2, GetMethod(ts1, i, pending, g));
    } else {
      AtOther(ts1, i, pending, g);
      AtOther(ts2, i, pending, g);
      if i + 1 < |ts1| {
        DecomposeFromLocal(ts1, ts2, i + 1, pending', g);
      }
    }
  }

  lemma {:induction false} ResumeAfterLocal(ts1: seq<Token>, ts2: seq<Token>, m: Run)
    requires m.pos <= |ts1| && AgreeOn(ts1, ts2, m.pos + 1, |ts1|)
    ensures ResumeAfter(ts2, m) == ResumeAfter(ts1, m)
    decreases |ts1| - m.pos, 0
  {
    if m.status == Ok && m.pos + 1 < |ts1| {
      DecomposeFromLocal(ts1, ts2, m.pos + 1, NoType, m.graph);
    }
  }

  /** After a method body, `decomposeClass` calls `next()` once more before
      looking at a token, so the token right after the closing `}` is never
      inspected at top level: replacing it by any token t changes nothing.
      (`function a(){}function b(){}` therefore never declares b.) */
  lemma TokenAfterBodyIgnored(ts: seq<Token>, i: nat, pending: MethodType, g: Tables, t: Token)
    requires i < |ts| && IsToken(ts[i], Function)
    requires GetMethod(ts, i, pending, g).status == Ok && GetMethod(ts, i, pending, g).pos < |ts|
    ensures var p := GetMethod(ts, i, pending, g).pos;
      DecomposeFrom(ts[p := t], i, pending, g) == DecomposeFrom(ts, i, pending, g)
  {
    var m := GetMethod(ts, i, pending, g);
    var ts2 := ts[m.pos := t];
    assert ts2[i] == ts[i];
    AtFunction(ts, i, pending, g);
    AtFunction(ts2, i, pending, g);
    assert AgreeOn(ts, ts2, i + 1, m.pos);
    GetMethodLocal(ts, ts2, i, pending, g);
    assert AgreeOn(ts, ts2, m.pos + 1, |ts|);
    ResumeAfterLocal(ts, ts2, m);
  }

  // ---------------------------------------------------------------- declarations

  /** `getMethod` registers the name after `function` with the pending type,
      and the body scan that follows never changes that type nor any other
      existing entry except the new method's own callee list. */
  lemma GetMethodDeclares(ts: seq<Token>, f: nat, methodType: MethodType, g: Tables)
    requires f < |ts|
    ensures var name := NameAt(ts, NextNonWhitespace(ts, f));
      var r := GetMethod(ts, f, methodType, g).graph;
      && name in r.methodsList && name in r.methodsType && r.methodsType[name] == methodType
      && (forall m :: m in g.methodsType && m != name ==> m in r.methodsType && r.methodsType[m] == g.methodsType[m])
      && (forall m :: m in g.methodsList && m != name ==> m in r.methodsList && r.methodsList[m] == g.methodsList[m])
  {
    var n := NextNonWhitespace(ts, f);
    var g1 := Declare(g, NameAt(ts, n), methodType);
    var b := FindOpenBrace(ts, n);
    if b < |ts| {
      ScanFrame(ts, b, BodyState(0, Idle, g1), NameAt(ts, n));
    }
  }

  /** Top-level tokens that are neither `function` nor a visibility keyword are
      passed over without any change. */
  lemma {:induction false} SkipPlainTokens(ts: seq<Token>, i: nat, j: nat, pending: MethodType, g: Tables)
    requires i <= j < |ts|
    requires forall k :: i <= k < j ==> !IsToken(ts[k], Function) && !IsVisibility(ts[k])
    ensures DecomposeFrom(ts, i, pending, g) == DecomposeFrom(ts, j, pending, g)
    decreases j - i
  {
    if i < j {
      SkipPlainTokens(ts, i, j - 1, pending, g);
      AtOther(ts, j - 1, pending, g);
    }
  }

  /** A visibility keyword stays pending across any tokens that are neither
      `function` nor another keyword (`public static function`, or a property
      declaration `private $x;` before the next method), and the next `function`
      is read with it. */
  lemma PendingVisibility(ts: seq<Token>, i: nat, j: nat, pending: MethodType, g: Tables)
    requires i < j < |ts| && IsVisibility(ts[i]) && IsToken(ts[j], Function)
    requires forall k :: i < k < j ==> !IsToken(ts[k], Function) && !IsVisibility(ts[k])
    ensures DecomposeFrom(ts, i, pending, g) == ResumeAfter(ts, GetMethod(ts, j, TypeText(ts[i].text), g))
  {
    var p := TypeText(ts[i].text);
    AtOther(ts, i, pending, g);
    SkipPlainTokens(ts, i + 1, j, p, g);
    AtFunction(ts, j, p, g);
  }

  /** With no `function` token left, the pass ends successfully and the
      tables stay as they are. */
  lemma {:induction false} NoFunctionLeft(ts: seq<Token>, i: nat, pending: MethodType, g: Tables)
    requires i < |ts|
    requires forall k :: i <= k < |ts| ==> !IsToken(ts[k], Function)
    ensures DecomposeFrom(ts, i, pending, g) == Run(Ok, |ts|, g)
    decreases |ts| - i
  {
    var t := ts[i];
    var pending' := if IsVisibility(t) then TypeText(t.text) else pending;
    AtOther(ts, i, pending, g);
    if i + 1 < |ts| {
      NoFunctionLeft(ts, i + 1, pending', g);
    }
  }

  /** `function name() {`: the declaration is read as `name` and the body
      scan starts at the `{`. */
  lemma PlainDeclaration(ts: seq<Token>, f: nat, methodType: MethodType, g: Tables)
    requires f + 5 < |ts| && IsToken(ts[f + 1], Whitespace) && IsToken(ts[f + 2], Identifier)
    requires ts[f + 3] == Char('(') && ts[f + 4] == Char(')') && ts[f + 5] == Char('{')
    ensures GetMethod(ts, f, methodType, g)
         == ParseMethod(ts, f + 5, ts[f + 2].text, Declare(g, ts[f + 2].text, methodType))
  {
    assert NextNonWhitespace(ts, f) == NextNonWhitespace(ts, f + 1) == f + 2;
    assert FindOpenBrace(ts, f + 4) == f + 5;
    assert FindOpenBrace(ts, f + 2) == FindOpenBrace(ts, f + 3) == f + 5;
  }
}
