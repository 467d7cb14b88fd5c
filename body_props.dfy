/** Properties of the method body scanner (`parseMethod`). */
module BodyProps {
  import opened Tokens
  import opened Graph
  import opened Scanner

  // ---------------------------------------------------------------- brace balance

  /** Net brace balance of the tokens at positions i .. j-1. */
  function Depth(ts: seq<Token>, i: nat, j: nat): int
    requires i <= j <= |ts|
    decreases j - i
  {
    if i == j then 0 else Depth(ts, i, j - 1) + Delta(ts[j - 1])
  }

  lemma {:induction false} DepthFirst(ts: seq<Token>, i: nat, j: nat)
    requires i < j <= |ts|
    ensures Depth(ts, i, j) == Delta(ts[i]) + Depth(ts, i + 1, j)
    decreases j - i
  {
    if j > i + 1 {
      DepthFirst(ts, i, j - 1);
    }
  }

  /** The body loop adds up the brace balance and stops at the first position
      where it is no longer positive, or at the end of the tokens. */
  lemma {:induction false} ScanDepth(ts: seq<Token>, i: nat, s: BodyState, caller: string)
    requires i < |ts|
    ensures var r := ScanFrom(ts, i, s, caller);
      && r.state.depth == s.depth + Depth(ts, i, r.pos)
      && (forall k :: i < k < r.pos ==> s.depth + Depth(ts, i, k) > 0)
      && (r.pos < |ts| ==> r.state.depth <= 0)
    decreases |ts| - i
  {
    var s' := BodyStep(ts[i], s, caller);
    assert s'.depth == s.depth + Depth(ts, i, i + 1);
    if s'.depth > 0 && i + 1 < |ts| {
      ScanDepth(ts, i + 1, s', caller);
      var r := ScanFrom(ts, i + 1, s', caller);
      forall k | i < k <= r.pos
        ensures Depth(ts, i, k) == Delta(ts[i]) + Depth(ts, i + 1, k)
      {
        DepthFirst(ts, i, k);
      }
    }
  }

  /** `parseMethod` started on a `{`: the balance stays positive until the scan
      ends and never goes negative; the scan succeeds exactly when the balance
      returns to 0, which happens on the matching `}` with the cursor one token
      past it; it fails with "Bad brace balance!" exactly when the tokens run
      out while the balance is still positive. */
  lemma BodyEndsAtMatchingBrace(ts: seq<Token>, start: nat, caller: string, g: Tables)
    requires start < |ts| && ts[start] == Char('{')
    ensures var r := ParseMethod(ts, start, caller, g);
      && (forall k :: start < k < r.pos ==> Depth(ts, start, k) > 0)
      && Depth(ts, start, r.pos) >= 0
      && (r.status == Ok <==> Depth(ts, start, r.pos) == 0)
      && (r.status == Ok ==> ts[r.pos - 1] == Char('}'))
      && (r.status == BadBraceBalance <==> forall k :: start < k <= |ts| ==> Depth(ts, start, k) > 0)
      && (r.status == BadBraceBalance ==> r.pos == |ts|)
  {
    var s := BodyState(0, Idle, g);
    ScanDepth(ts, start, s, caller);
    var sc := ScanFrom(ts, start, s, caller);
    var p := sc.pos;
    assert Depth(ts, start, start + 1) == 1;
    if p > start + 1 {
      assert Depth(ts, start, p - 1) > 0;
      assert Depth(ts, start, p) == Depth(ts, start, p - 1) + Delta(ts[p - 1]);
    }
  }

  // ---------------------------------------------------------------- whitespace

  function InsertAt(ts: seq<Token>, m: nat, w: Token): (r: seq<Token>)
    requires m <= |ts|
    ensures |r| == |ts| + 1 && r[m] == w
    ensures forall k :: 0 <= k < m ==> r[k] == ts[k]
    ensures forall k :: m <= k < |ts| ==> r[k + 1] == ts[k]
  {
    ts[..m] + [w] + ts[m..]
  }

  lemma {:induction false} ScanShifted(ts: seq<Token>, m: nat, w: Token, i: nat, s: BodyState, caller: string)
    requires m <= i < |ts|
    ensures var a := ScanFrom(ts, i, s, caller);
      var b := ScanFrom(InsertAt(ts, m, w), i + 1, s, caller);
      b.pos == a.pos + 1 && b.state == a.state
    decreases |ts| - i
  {
    var s' := BodyStep(ts[i], s, caller);
    if s'.depth > 0 && i + 1 < |ts| {
      ScanShifted(ts, m, w, i + 1, s', caller);
    }
  }

  lemma {:induction false} ScanInsert(ts: seq<Token>, m: nat, w: Token, i: nat, s: BodyState, caller: string)
    requires i < m <= |ts| && IsToken(w, Whitespace)
    ensures var a := ScanFrom(ts, i, s, caller);
      var b := ScanFrom(InsertAt(ts, m, w), i, s, caller);
      b.state == a.state && (b.pos == a.pos || b.pos == a.pos + 1)
    decreases |ts| - i
  {
    var ts' := InsertAt(ts, m, w);
    var s' := BodyStep(ts[i], s, caller);
    if s'.depth > 0 && i + 1 < m {
      ScanInsert(ts, m, w, i + 1, s', caller);
    } else if s'.depth > 0 && i + 1 < |ts| {
      assert BodyStep(ts'[m], s', caller) == s';
      ScanShifted(ts, m, w, m, s', caller);
    } else if s'.depth > 0 {
      assert BodyStep(ts'[m], s', caller) == s';
    }
  }

  /** Whitespace anywhere in a method body is invisible to the scan: inserting
      a whitespace token after the opening token changes neither the outcome
      nor the tables, and moves the end by at most the inserted token. In
      particular `$this->foo ()` records a call just like `$this->foo()`. */
  lemma WhitespaceInBodyIsInvisible(ts: seq<Token>, start: nat, caller: string, g: Tables, m: nat, w: Token)
    requires start < m <= |ts| && IsToken(w, Whitespace)
    ensures var a := ParseMethod(ts, start, caller, g);
      var b := ParseMethod(InsertAt(ts, m, w), start, caller, g);
      b.status == a.status && b.graph == a.graph && (b.pos == a.pos || b.pos == a.pos + 1)
  {
    ScanInsert(ts, m, w, start, BodyState(0, Idle, g), caller);
  }

  // ---------------------------------------------------------------- the `$this -> name` detector

  /** Where the body loop goes on from position j with state s: the loop
      condition `braceBalance > 0 && $token`. */
  function Resume(ts: seq<Token>, j: nat, s: BodyState, caller: string): (r: Scan)
    ensures r.pos >= j
  {
    if s.depth > 0 && j < |ts| then ScanFrom(ts, j, s, caller) else Scan(j, s)
  }

  /** `$this`, `->`, name, `(`: the name is appended to the caller's callees
      (one entry per call site) and typed "inherited" if it had no type; the
      detector is back at its start and the balance is unchanged. */
  lemma {:induction false} CallSiteRecorded(ts: seq<Token>, i: nat, s: BodyState, caller: string)
    requires i + 3 < |ts| && s.depth > 0 && s.detector == Idle
    requires IsThis(ts[i]) && IsToken(ts[i + 1], ObjectOperator) && IsToken(ts[i + 2], Identifier)
    requires ts[i + 3] == Char('(')
    ensures ScanFrom(ts, i, s, caller)
         == Resume(ts, i + 4, BodyState(s.depth, Idle, RecordCall(s.graph, caller, ts[i + 2].text)), caller)
  {
    var s1 := BodyState(s.depth, SawThis, s.graph);
    var s2 := BodyState(s.depth, SawArrow, s.graph);
    var s3 := BodyState(s.depth, SawName(ts[i + 2].text), s.graph);
    assert ScanFrom(ts, i, s, caller) == ScanFrom(ts, i + 1, s1, caller);
    assert ScanFrom(ts, i + 1, s1, caller) == ScanFrom(ts, i + 2, s2, caller);
    assert ScanFrom(ts, i + 2, s2, caller) == ScanFrom(ts, i + 3, s3, caller);
  }

  /** `$this`, `->`, name, then any other non-whitespace token (`;`, `=`,
      `->`, even the closing `}`): the caller is added to the property's
      accessors unless already there; that token still counts for the balance. */
  lemma {:induction false} AccessSiteRecorded(ts: seq<Token>, i: nat, s: BodyState, caller: string)
    requires i + 3 < |ts| && s.depth > 0 && s.detector == Idle
    requires IsThis(ts[i]) && IsToken(ts[i + 1], ObjectOperator) && IsToken(ts[i + 2], Identifier)
    requires ts[i + 3] != Char('(') && !IsToken(ts[i + 3], Whitespace)
    ensures ScanFrom(ts, i, s, caller)
         == Resume(ts, i + 4, BodyState(s.depth + Delta(ts[i + 3]), Idle, RecordAccess(s.graph, caller, ts[i + 2].text)), caller)
  {
    var s1 := BodyState(s.depth, SawThis, s.graph);
    var s2 := BodyState(s.depth, SawArrow, s.graph);
    var s3 := BodyState(s.depth, SawName(ts[i + 2].text), s.graph);
    assert ScanFrom(ts, i, s, caller) == ScanFrom(ts, i + 1, s1, caller);
    assert ScanFrom(ts, i + 1, s1, caller) == ScanFrom(ts, i + 2, s2, caller);
    assert ScanFrom(ts, i + 2, s2, caller) == ScanFrom(ts, i + 3, s3, caller);
  }

  /** A token that opens or closes no brace and is not `$this`, met while the
      detector is idle, leaves the state as it is. */
  lemma InertToken(ts: seq<Token>, j: nat, s: BodyState, caller: string)
    requires j < |ts| && s.depth > 0 && s.detector == Idle
    requires !IsThis(ts[j]) && Delta(ts[j]) == 0
    ensures ScanFrom(ts, j, s, caller) == Resume(ts, j + 1, s, caller)
  {
  }

  /** `$this->a->b(`: the detector does not backtrack, so a is recorded as a
      property (the second `->` ends its pattern) and nothing is recorded for b. */
  lemma {:induction false} ChainedAccessRecordsOnlyFirst(ts: seq<Token>, i: nat, s: BodyState, caller: string)
    requires i + 5 < |ts| && s.depth > 0 && s.detector == Idle
    requires IsThis(ts[i]) && IsToken(ts[i + 1], ObjectOperator) && IsToken(ts[i + 2], Identifier)
    requires IsToken(ts[i + 3], ObjectOperator) && IsToken(ts[i + 4], Identifier) && ts[i + 5] == Char('(')
    ensures ScanFrom(ts, i, s, caller)
         == Resume(ts, i + 6, BodyState(s.depth, Idle, RecordAccess(s.graph, caller, ts[i + 2].text)), caller)
  {
    assert Delta(ts[i + 3]) == 0;
    AccessSiteRecorded(ts, i, s, caller);
    var s4 := BodyState(s.depth, Idle, RecordAccess(s.graph, caller, ts[i + 2].text));
    InertToken(ts, i + 4, s4, caller);
    InertToken(ts, i + 5, s4, caller);
  }

  /** `$this $this->f(`: the second `$this` breaks the pattern the first one
      started and is not tested again as a fresh start, so no call is recorded. */
  lemma {:induction false} BreakingThisNotRetested(ts: seq<Token>, i: nat, s: BodyState, caller: string)
    requires i + 4 < |ts| && s.depth > 0 && s.detector == Idle
    requires IsThis(ts[i]) && IsThis(ts[i + 1]) && IsToken(ts[i + 2], ObjectOperator)
    requires IsToken(ts[i + 3], Identifier) && ts[i + 4] == Char('(')
    ensures ScanFrom(ts, i, s, caller) == Resume(ts, i + 5, BodyState(s.depth, Idle, s.graph), caller)
  {
    var s1 := BodyState(s.depth, SawThis, s.graph);
    var s2 := BodyState(s.depth, Idle, s.graph);
    assert ScanFrom(ts, i, s, caller) == ScanFrom(ts, i + 1, s1, caller);
    assert ScanFrom(ts, i + 1, s1, caller) == ScanFrom(ts, i + 2, s2, caller);
    InertToken(ts, i + 2, s2, caller);
    InertToken(ts, i + 3, s2, caller);
    InertToken(ts, i + 4, s2, caller);
  }

  // ---------------------------------------------------------------- what a body scan changes

  /** A body scan for `caller` changes only the caller's callee list, gives a
      type ("inherited") only to names that had none and never changes an
      existing type, and adds only the caller to any property's accessors. */
  lemma {:induction false} ScanFrame(ts: seq<Token>, i: nat, s: BodyState, caller: string)
    requires i < |ts|
    ensures var r := ScanFrom(ts, i, s, caller).state.graph;
      && s.graph.methodsList.Keys <= r.methodsList.Keys <= s.graph.methodsList.Keys + {caller}
      && (forall m :: m in s.graph.methodsList && m != caller ==> r.methodsList[m] == s.graph.methodsList[m])
      && (forall m :: m in s.graph.methodsType ==> m in r.methodsType && r.methodsType[m] == s.graph.methodsType[m])
      && (forall m :: m in r.methodsType && m !in s.graph.methodsType ==> r.methodsType[m] == Inherited)
      && (forall v, m :: v in r.variableList && m in r.variableList[v] ==>
            m == caller || (v in s.graph.variableList && m in s.graph.variableList[v]))
    decreases |ts| - i
  {
    var s' := BodyStep(ts[i], s, caller);
    if s'.depth > 0 && i + 1 < |ts| {
      ScanFrame(ts, i + 1, s', caller);
    }
  }

  // ---------------------------------------------------------------- the tables stay well formed

  lemma EmitPreserves(g: Tables, caller: string, e: Edge)
    requires WellFormed(g) && caller in g.methodsList
    ensures WellFormed(Emit(g, caller, e)) && caller in Emit(g, caller, e).methodsList
  {
    match e
    case NoEdge =>
    case CallEdge(callee) => RecordCallPreserves(g, caller, callee);
    case AccessEdge(property) => RecordAccessPreserves(g, caller, property);
  }

  /** A body scan of a declared method keeps the tables well formed. */
  lemma {:induction false} ScanPreserves(ts: seq<Token>, i: nat, s: BodyState, caller: string)
    requires i < |ts| && WellFormed(s.graph) && caller in s.graph.methodsList
    ensures var r := ScanFrom(ts, i, s, caller);
      WellFormed(r.state.graph) && caller in r.state.graph.methodsList
    decreases |ts| - i
  {
    if !IsToken(ts[i], Whitespace) {
      EmitPreserves(s.graph, caller, Detect(s.detector, ts[i]).edge);
    }
    var s' := BodyStep(ts[i], s, caller);
    if s'.depth > 0 && i + 1 < |ts| {
      ScanPreserves(ts, i + 1, s', caller);
    }
  }

  // ---------------------------------------------------------------- what a body scan reads

  /** ts1 and ts2 have the same length and the same tokens at lo .. hi-1. */
  predicate AgreeOn(ts1: seq<Token>, ts2: seq<Token>, lo: nat, hi: nat)
  {
    |ts1| == |ts2| && hi <= |ts1| && forall k :: lo <= k < hi ==> ts1[k] == ts2[k]
  }

  /** The body loop reads only the tokens from where it starts to where it stops. */
  lemma {:induction false} ScanLocal(ts1: seq<Token>, ts2: seq<Token>, i: nat, s: BodyState, caller: string)
    requires i < |ts1| && AgreeOn(ts1, ts2, i, ScanFrom(ts1, i, s, caller).pos)
    ensures ScanFrom(ts2, i, s, caller) == ScanFrom(ts1, i, s, caller)
    decreases |ts1| - i
  {
    var s' := BodyStep(ts1[i], s, caller);
    if s'.depth > 0 && i + 1 < |ts1| {
      ScanLocal(ts1, ts2, i + 1, s', caller);
    }
  }

  /** `{}`: an empty body ends right after its `}` and records nothing. */
  lemma EmptyBody(ts: seq<Token>, b: nat, caller: string, g: Tables)
    requires b + 1 < |ts| && ts[b] == Char('{') && ts[b + 1] == Char('}')
    ensures ParseMethod(ts, b, caller, g) == Run(Ok, b + 2, g)
  {
    assert ScanFrom(ts, b, BodyState(0, Idle, g), caller) == ScanFrom(ts, b + 1, BodyState(1, Idle, g), caller);
  }
}
