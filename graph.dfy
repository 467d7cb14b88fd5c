/** The three tables the scanner fills in (fields `methodsList`, `methodsType`
    and `variableList` of Class2GV.php) and the updates it makes to them. */
module Graph {

  /** A value of `methodsType`: the text of a visibility keyword, the string
      "inherited", or PHP `false` for a method declared without a keyword. */
  datatype MethodType = TypeText(text: string) | NoType

  const Inherited: MethodType := TypeText("inherited")

  datatype Tables = Tables(
    methodsList: map<string, seq<string>>,   // caller -> callees, one entry per call site
    methodsType: map<string, MethodType>,    // method -> visibility
    variableList: map<string, seq<string>>)  // property -> accessing methods

  /** Reading `$table[$key]` where a missing key reads as an empty array. */
  function Lookup(m: map<string, seq<string>>, key: string): seq<string>
  {
    if key in m then m[key] else []
  }

  predicate NoDuplicates(s: seq<string>)
  {
    forall i, j :: 0 <= i < j < |s| ==> s[i] != s[j]
  }

  /** What holds of the tables after a single run from empty tables: every
      caller and every callee has a type, and each property lists every
      accessing method once, and only declared methods access properties. */
  predicate WellFormed(g: Tables)
  {
    && g.methodsList.Keys <= g.methodsType.Keys
    && (forall m, c :: m in g.methodsList && c in g.methodsList[m] ==> c in g.methodsType)
    && (forall v :: v in g.variableList ==> NoDuplicates(g.variableList[v]))
    && (forall v, m :: v in g.variableList && m in g.variableList[v] ==> m in g.methodsList)
  }

  /** A declaration (getMethod): both tables are overwritten for the name. */
  function Declare(g: Tables, name: string, t: MethodType): (r: Tables)
    ensures r.methodsList.Keys == g.methodsList.Keys + {name} && r.methodsList[name] == []
    ensures r.methodsType.Keys == g.methodsType.Keys + {name} && r.methodsType[name] == t
    ensures forall m :: m in g.methodsList && m != name ==> r.methodsList[m] == g.methodsList[m]
    ensures forall m :: m in g.methodsType && m != name ==> r.methodsType[m] == g.methodsType[m]
    ensures r.variableList == g.variableList
  {
    Tables(g.methodsList[name := []], g.methodsType[name := t], g.variableList)
  }

  /** A call edge `$this->callee(`: the callee is appended to the caller's list,
      duplicates kept, and typed "inherited" only when it has no type yet. */
  function RecordCall(g: Tables, caller: string, callee: string): (r: Tables)
    ensures r.methodsList.Keys == g.methodsList.Keys + {caller}
    ensures r.methodsList[caller] == Lookup(g.methodsList, caller) + [callee]
    ensures forall m :: m in g.methodsList && m != caller ==> r.methodsList[m] == g.methodsList[m]
    ensures callee in r.methodsType && r.methodsType.Keys == g.methodsType.Keys + {callee}
    ensures callee in g.methodsType ==> r.methodsType == g.methodsType
    ensures callee !in g.methodsType ==> r.methodsType[callee] == Inherited
    ensures forall m :: m in g.methodsType ==> r.methodsType[m] == g.methodsType[m]
    ensures r.variableList == g.variableList
  {
    var types := if callee in g.methodsType then g.methodsType else g.methodsType[callee := Inherited];
    Tables(g.methodsList[caller := Lookup(g.methodsList, caller) + [callee]], types, g.variableList)
  }

  /** A property access `$this->property` not followed by `(`: the accessing
      method is added to the property's list unless it is already there. */
  function RecordAccess(g: Tables, caller: string, property: string): (r: Tables)
    ensures r.variableList.Keys == g.variableList.Keys + {property}
    ensures caller in r.variableList[property]
    ensures forall m :: m in r.variableList[property] <==> m in Lookup(g.variableList, property) || m == caller
    ensures NoDuplicates(Lookup(g.variableList, property)) ==> NoDuplicates(r.variableList[property])
    ensures caller in Lookup(g.variableList, property) ==> r.variableList[property] == Lookup(g.variableList, property)
    ensures forall v :: v in g.variableList && v != property ==> r.variableList[v] == g.variableList[v]
    ensures r.methodsList == g.methodsList && r.methodsType == g.methodsType
  {
    var accessors := Lookup(g.variableList, property);
    var updated := if caller in accessors then accessors else accessors + [caller];
    Tables(g.methodsList, g.methodsType, g.variableList[property := updated])
  }

  /** The empty tables, except that `methodsList` may hold what an earlier run left. */
  function Initial(methodsList: map<string, seq<string>>): (r: Tables)
    ensures r.methodsList == methodsList && r.methodsType == map[] && r.variableList == map[]
    ensures methodsList == map[] ==> WellFormed(r)
  {
    Tables(methodsList, map[], map[])
  }

  lemma DeclarePreserves(g: Tables, name: string, t: MethodType)
    requires WellFormed(g)
    ensures WellFormed(Declare(g, name, t))
  {
  }

  lemma RecordCallPreserves(g: Tables, caller: string, callee: string)
    requires WellFormed(g) && caller in g.methodsList
    ensures WellFormed(RecordCall(g, caller, callee))
    ensures caller in RecordCall(g, caller, callee).methodsList
  {
    var r := RecordCall(g, caller, callee);
    forall m, c | m in r.methodsList && c in r.methodsList[m]
      ensures c in r.methodsType
    {
      if m == caller {
        assert c in g.methodsList[caller] || c == callee;
      }
    }
  }

  lemma RecordAccessPreserves(g: Tables, caller: string, property: string)
    requires WellFormed(g) && caller in g.methodsList
    ensures WellFormed(RecordAccess(g, caller, property))
  {
  }
}
