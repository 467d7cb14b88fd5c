/** The analyzer object of Class2GV.php. It holds the token array with its
    internal pointer and the three tables, and its methods advance the one
    shared cursor and update the tables in place. Each method is proved to
    leave exactly the state the corresponding function of `Scanner` computes. */
module Analyzer {
  import opened Tokens
  import opened Graph
  import opened Scanner

  class Class2GV {
    var tokens: seq<Token>
    /** The internal pointer of `$this->tokens`; |tokens| once `next()` has run past the end. */
    var pos: nat
    var methodsList: map<string, seq<string>>
    var methodsType: map<string, MethodType>
    var variableList: map<string, seq<string>>
    var graphData: map<string, seq<string>>

    predicate Valid()
      reads this`pos, this`tokens
    {
      pos <= |tokens|
    }

    function View(): Tables
      reads this`methodsList, this`methodsType, this`variableList
    {
      Tables(methodsList, methodsType, variableList)
    }

    /** PHP's `next($this->tokens)`: advance the pointer; false once it is past the end. */
    method Next() returns (more: bool)
      requires Valid()
      modifies this`pos
      ensures Valid()
      ensures pos == if old(pos) < |tokens| then old(pos) + 1 else old(pos)
      ensures more <==> pos < |tokens|
    {
      if pos < |tokens| {
        pos := pos + 1;
      }
      more := pos < |tokens|;
    }

    /** Moves the pointer to the next bare `{`; when there is none the source
        loops forever, and this returns false with the pointer past the end. */
    method FindOpenMethodBrace() returns (found: bool)
      requires Valid()
      modifies this`pos
      ensures Valid()
      ensures pos == FindOpenBrace(tokens, old(pos))
      ensures found <==> pos < |tokens|
    {
      while true
        invariant Valid() && old(pos) <= pos
        invariant FindOpenBrace(tokens, pos) == FindOpenBrace(tokens, old(pos))
        decreases |tokens| - pos
      {
        var more := Next();
        if !more {
          return false;
        }
        if tokens[pos] == Char('{') {
          return true;
        }
      }
    }

    /** The three brace tests of the `parseMethod` loop body. */
    static method CountBrace(token: Token, braceBalance: int) returns (b: int)
      ensures b == braceBalance + Delta(token)
    {
      b := braceBalance;
      if token == Char('{') {
        b := b + 1;
      }
      if IsStringBrace(token) {
        b := b + 1;
      }
      if token == Char('}') {
        b := b - 1;
      }
    }

    /** The `findCallStatus` chain of the `parseMethod` loop body: advance the
        detector and record the call or property access it completes. */
    method TrackCall(token: Token, findCallStatus: Detector, methodName: string) returns (next: Detector)
      modifies this`methodsList, this`methodsType, this`variableList
      ensures var tr := Detect(findCallStatus, token);
        next == tr.next && View() == Emit(old(View()), methodName, tr.edge)
    {
      if findCallStatus == Idle && IsToken(token, Variable) && token.text == "$this" {
        next := SawThis;
      } else if findCallStatus == SawThis && IsToken(token, ObjectOperator) {
        next := SawArrow;
      } else if findCallStatus == SawArrow && IsToken(token, Identifier) {
        next := SawName(token.text);
      } else if findCallStatus.SawName? {
        var methodOrVariable := findCallStatus.name;
        next := Idle;
        if token == Char('(') {
          methodsList := methodsList[methodName := Lookup(methodsList, methodName) + [methodOrVariable]];
          if methodOrVariable !in methodsType {
            methodsType := methodsType[methodOrVariable := Inherited];
          }
        } else {
          var accessors := Lookup(variableList, methodOrVariable);
          if methodName !in accessors {
            accessors := accessors + [methodName];
          }
          variableList := variableList[methodOrVariable := accessors];
        }
      } else {
        next := Idle;
      }
    }

    /** Scans one method body from the `{` under the pointer, recording the
        calls and property accesses of `methodName`. */
    method ParseMethod(methodName: string) returns (status: Status)
      requires Valid() && pos < |tokens|
      modifies this`pos, this`methodsList, this`methodsType, this`variableList
      ensures Valid()
      ensures var r := Scanner.ParseMethod(tokens, old(pos), methodName, old(View()));
        status == r.status && pos == r.pos && View() == r.graph
    {
      ghost var target := ScanFrom(tokens, pos, BodyState(0, Idle, View()), methodName);
      var braceBalance := 0;
      var findCallStatus := Idle;
      var token := tokens[pos];
      while true
        invariant Valid() && pos < |tokens| && token == tokens[pos]
        invariant ScanFrom(tokens, pos, BodyState(braceBalance, findCallStatus, View()), methodName) == target
        decreases |tokens| - pos
      {
        ghost var before := BodyState(braceBalance, findCallStatus, View());
        if !IsToken(token, Whitespace) {
          braceBalance := CountBrace(token, braceBalance);
          findCallStatus := TrackCall(token, findCallStatus, methodName);
        }
        assert BodyState(braceBalance, findCallStatus, View()) == BodyStep(token, before, methodName);

        var more := Next();
        if !(braceBalance > 0 && more) {
          break;
        }
        token := tokens[pos];
      }
      if braceBalance != 0 {
        return BadBraceBalance;
      }
      return Ok;
    }

    /** Reads a declaration from the `function` token under the pointer:
        registers the name with `methodType`, then scans the body. */
    method GetMethod(methodType: MethodType) returns (status: Status)
      requires Valid() && pos < |tokens|
      modifies this`pos, this`methodsList, this`methodsType, this`variableList
      ensures Valid()
      ensures var r := Scanner.GetMethod(tokens, old(pos), methodType, old(View()));
        status == r.status && pos == r.pos && View() == r.graph
    {
      ghost var g0 := View();
      var more := Next();
      while more && IsToken(tokens[pos], Whitespace)
        invariant Valid() && old(pos) < pos && View() == g0
        invariant more <==> pos < |tokens|
        invariant forall k :: old(pos) < k < pos ==> IsToken(tokens[k], Whitespace)
        decreases |tokens| - pos
      {
        more := Next();
      }
      ghost var n := pos;
      NextNonWhitespaceIsFirst(tokens, old(pos), n);

      var methodName := NameAt(tokens, pos);
      methodsList := methodsList[methodName := []];
      methodsType := methodsType[methodName := methodType];
      assert View() == Declare(g0, methodName, methodType);

      var found := FindOpenMethodBrace();
      assert pos == FindOpenBrace(tokens, n);
      if !found {
        return NoOpeningBrace;
      }
      status := ParseMethod(methodName);
    }

    /** Runs the whole top-level pass over ts. `methodsType` and
        `variableList` are reset first; `methodsList` is not. */
    method DecomposeClass(ts: seq<Token>) returns (status: Status)
      modifies this`tokens, this`pos, this`methodsList, this`methodsType, this`variableList
      ensures Valid() && tokens == ts
      ensures var r := Decompose(ts, old(methodsList)); status == r.status && pos == r.pos && View() == r.graph
    {
      methodsType, variableList, tokens, pos := map[], map[], ts, 0;

      var nextMethodType := NoType;
      if |tokens| == 0 {
        // current() is false and next() ends the pass at once
        return Ok;
      }
      ghost var target := Decompose(ts, old(methodsList));
      ghost var g := View();
      assert target == DecomposeFrom(ts, 0, NoType, g);
      while true
        invariant Valid() && pos < |tokens| && tokens == ts && View() == g
        invariant DecomposeFrom(ts, pos, nextMethodType, g) == target
        decreases |tokens| - pos
      {
        ghost var here, pending, before := pos, nextMethodType, g;
        var token := tokens[pos];
        if IsVisibility(token) {
          nextMethodType := TypeText(token.text);
        }
        if IsToken(token, Function) {
          AtFunction(ts, here, pending, before);
          status := GetMethod(nextMethodType);
          g := View();
          assert target == ResumeAfter(ts, Run(status, pos, g));
          if status != Ok {
            return;
          }
          nextMethodType := NoType;
          ghost var end := pos;
          var more := Next();
          if !more {
            assert target == Run(Ok, |ts|, g);
            return Ok;
          }
          ResumeOk(ts, Run(status, end, g));
        } else {
          AtOther(ts, here, pending, before);
          var more := Next();
          if !more {
            assert target == Run(Ok, |ts|, g);
            return Ok;
          }
        }
      }
    }

    /** `makeGraphData`: `graphData` becomes a copy of `methodsList`. */
    method MakeGraphData()
      modifies this`graphData
      ensures graphData == methodsList
    {
      graphData := map[];
      var todo := methodsList.Keys;
      while todo != {}
        invariant todo <= methodsList.Keys
        invariant graphData.Keys == methodsList.Keys - todo
        invariant forall m :: m in graphData ==> graphData[m] == methodsList[m]
        decreases todo
      {
        var m :| m in todo;
        graphData := graphData[m := methodsList[m]];
        todo := todo - {m};
      }
    }
  }
}
