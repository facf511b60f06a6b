/**
 * The classes of the test suite, `Stateful` and its subclass `SubState`, and
 * what the suite expects of their instances.
 */
module Scenario {
  import opened Wrappers
  import opened Behaviour
  import opened Registry
  import opened Instance

  const START: StateDef := StateDef("start", map["add" := Bin(Add, Arg(0), Arg(1)), "use_helper" := SelfCall("helper")])
  const NEXT: StateDef := StateDef("next", map["add" := Bin(Sub, Arg(0), Arg(1)), "outer" := Lit(20)])
  const LAST: StateDef := StateDef("last", map["add" := Bin(Mul, Arg(0), Arg(1))])
  const ANOTHER: StateDef := StateDef("another", map["add" := Bin(Mod, Arg(0), Arg(1))])

  /** `Stateful`'s own methods: `helper` is 14, `outer` is 10. */
  const STATEFUL_OWN: Scope := map["helper" := Lit(14), "outer" := Lit(10)]

  const STATEFUL: ClassTable :=
    ClassTable(map["start" := START, "next" := NEXT, "last" := LAST], None, STATEFUL_OWN)
  const SUB_STATE: ClassTable := ClassTable(map["another" := ANOTHER], Some("another"), map[])

  /** Builds `Stateful` and `SubState < Stateful` as the test suite declares them. */
  method DefineClasses() returns (stateful: HostClass, subState: HostClass)
    ensures fresh(stateful) && fresh(subState)
    ensures stateful.Valid() && subState.Valid()
    ensures stateful.Table() == STATEFUL && subState.Table() == SUB_STATE
  {
    stateful := new HostClass(STATEFUL_OWN);
    stateful.DeclareState("start", START.ops);
    stateful.DeclareState("next", NEXT.ops);
    stateful.DeclareState("last", LAST.ops);
    subState := new HostClass(map[]);
    subState.DeclareState("another", ANOTHER.ops);
    subState.StartingState("another");
  }

  lemma StatefulTable()
    ensures WellFormed([STATEFUL])
    ensures OwnOps([STATEFUL]) == STATEFUL_OWN
    ensures StartOf([STATEFUL]) == None
  {
    assert OwnFrom([STATEFUL], 1) == map[];
  }

  lemma StatefulStates()
    ensures Lookup([STATEFUL], "start") == Some(StateRef(START, 0))
    ensures Lookup([STATEFUL], "next") == Some(StateRef(NEXT, 0))
    ensures Lookup([STATEFUL], "last") == Some(StateRef(LAST, 0))
    ensures Lookup([STATEFUL], "fail_state") == None
  {
    assert LookupFrom([STATEFUL], "fail_state", 1) == None;
  }

  /**
   * `Stateful` resolves `start`, `next` and `last` to its own declarations, has
   * no starting state, no `fail_state`, and `helper` and `outer` as its own methods.
   */
  lemma StatefulResolution()
    ensures WellFormed([STATEFUL])
    ensures OwnOps([STATEFUL]) == STATEFUL_OWN
    ensures StartOf([STATEFUL]) == None
    ensures Lookup([STATEFUL], "start") == Some(StateRef(START, 0))
    ensures Lookup([STATEFUL], "next") == Some(StateRef(NEXT, 0))
    ensures Lookup([STATEFUL], "last") == Some(StateRef(LAST, 0))
    ensures Lookup([STATEFUL], "fail_state") == None
  {
    StatefulTable();
    StatefulStates();
  }

  /** A new `Stateful` object, ready for use, with `Stateful` and `SubState` declared. */
  method NewStateful() returns (o: StatefulObject)
    ensures fresh(o) && o.Valid() && WellFormed(Tables(o.ancestry))
    ensures Tables(o.ancestry) == [STATEFUL] && o.Abs() == FRESH
  {
    var stateful, _ := DefineClasses();
    o := new StatefulObject([stateful]);
    StatefulResolution();
  }

  /** There is no current state until one is chosen; then it is the chosen one. */
  method QueryAndChange() returns (before: Option<Name>, after: Option<Name>)
    ensures before == None && after == Some("start")
  {
    var o := NewStateful();
    StatefulResolution();
    before := o.CurrentState();
    var _ := o.ChangeState("start");
    after := o.CurrentState();
  }

  /** An undeclared state is refused and the current state stays unset. */
  method InvalidChoice() returns (failed: Result<StateRef, Error>, after: Option<Name>)
    ensures failed == Err(InvalidStateError("fail_state"))
    ensures after == None
  {
    var o := NewStateful();
    StatefulResolution();
    failed := o.ChangeState("fail_state");
    after := o.CurrentState();
  }

  /** Once `Stateful` declares a starting state, a new object starts there. */
  method StartingState() returns (current: Option<Name>)
    ensures current == Some("start")
  {
    var stateful, _ := DefineClasses();
    stateful.StartingState("start");
    var o := new StatefulObject([stateful]);
    assert Tables(o.ancestry) == [STATEFUL.(start := Some("start"))];
    current := o.CurrentState();
  }

  /** `change_state!` into one of `Stateful`'s states. */
  method Enter(o: StatefulObject, n: Name)
    requires o.Valid() && Tables(o.ancestry) == [STATEFUL] && Coherent([STATEFUL], o.Abs())
    requires n in STATEFUL.states
    modifies o
    ensures o.Valid() && Tables(o.ancestry) == [STATEFUL] && Coherent([STATEFUL], o.Abs())
    ensures o.current == Some(StateRef(STATEFUL.states[n], 0))
  {
    StatefulResolution();
    ChangeKeepsCoherent([STATEFUL], o.Abs(), n);
    ChangeSucceedsIffDeclared([STATEFUL], o.Abs(), n);
    assert 0 <= 0 < 1 && n in [STATEFUL][0].states;
    var _ := o.ChangeState(n);
  }

  /** `change_state!` into one of `Stateful`'s states, then a call that state's block answers. */
  method CallIn(o: StatefulObject, n: Name, op: OpName, args: seq<int>) returns (r: Result<int, Error>)
    requires o.Valid() && Tables(o.ancestry) == [STATEFUL] && Coherent([STATEFUL], o.Abs())
    requires n in STATEFUL.states && op in STATEFUL.states[n].ops && op !in STATEFUL_OWN
    modifies o
    ensures o.Valid() && Tables(o.ancestry) == [STATEFUL] && Coherent([STATEFUL], o.Abs())
    ensures o.current == Some(StateRef(STATEFUL.states[n], 0))
    ensures r == Eval(STATEFUL.states[n].ops[op], args, StateScope([STATEFUL], StateRef(STATEFUL.states[n], 0)), STACK_DEPTH)
  {
    Enter(o, n);
    ghost var o1 := o.Abs();
    StatefulResolution();
    StateMethodRuns([STATEFUL], o1, op, args);
    r := o.Call(op, args);
    assert (r, o.Abs()) == Dispatch([STATEFUL], o1, op, args);
  }

  /** `add(2, 4)` in `start`, `next` and `last`, whatever else the receiver answers. */
  lemma AddTwoFour(scope: Scope)
    ensures Eval(START.ops["add"], [2, 4], scope, STACK_DEPTH) == Ok(6)
    ensures Eval(NEXT.ops["add"], [2, 4], scope, STACK_DEPTH) == Ok(-2)
    ensures Eval(LAST.ops["add"], [2, 4], scope, STACK_DEPTH) == Ok(8)
  {
  }

  /** In `start`, `next` and `last`, `add(2, 4)` is 6, -2 and 8. */
  method PerStateAdd() returns (sum: Result<int, Error>, diff: Result<int, Error>, prod: Result<int, Error>)
    ensures sum == Ok(6) && diff == Ok(-2) && prod == Ok(8)
  {
    var o := NewStateful();
    sum := CallIn(o, "start", "add", [2, 4]);
    AddTwoFour(StateScope([STATEFUL], StateRef(START, 0)));
    diff := CallIn(o, "next", "add", [2, 4]);
    AddTwoFour(StateScope([STATEFUL], StateRef(NEXT, 0)));
    prod := CallIn(o, "last", "add", [2, 4]);
    AddTwoFour(StateScope([STATEFUL], StateRef(LAST, 0)));
  }

  /** `start`'s `use_helper` calls `helper`, which its state instance inherits from `Stateful`. */
  lemma UseHelper()
    ensures Eval(START.ops["use_helper"], [], StateScope([STATEFUL], StateRef(START, 0)), STACK_DEPTH) == Ok(14)
  {
    StatefulResolution();
  }

  /** `Stateful`'s own `helper` and `outer` answer 14 and 10 in every state, and change nothing. */
  lemma OwnCalls(o: Obj)
    requires Bounded(1, o)
    ensures Dispatch([STATEFUL], o, "helper", []) == (Ok(14), o)
    ensures Dispatch([STATEFUL], o, "outer", []) == (Ok(10), o)
  {
    StatefulResolution();
    OwnMethodWins([STATEFUL], o, "helper", []);
    OwnMethodWins([STATEFUL], o, "outer", []);
  }

  /** A state's method can call the object's own `helper`, which the object also answers directly. */
  method HelperFromState() returns (viaState: Result<int, Error>, direct: Result<int, Error>)
    ensures viaState == Ok(14) && direct == Ok(14)
  {
    var o := NewStateful();
    viaState := CallIn(o, "start", "use_helper", []);
    UseHelper();
    OwnCalls(o.Abs());
    direct := o.Call("helper", []);
  }

  /** In `next`, `use_helper`, declared only in `start`, raises `NoMethodError`. */
  lemma NextLacksUseHelper(o: Obj)
    requires o.current == Some(StateRef(NEXT, 0)) && Bounded(1, o)
    ensures Dispatch([STATEFUL], o, "use_helper", []) == (Err(NoMethodError("use_helper")), o)
  {
    StatefulResolution();
    NeitherRaises([STATEFUL], o, "use_helper", []);
  }

  /**
   * In `next`, `use_helper` raises `NoMethodError`, `helper` is 14, and `outer`
   * is the object's own 10, not the state's 20.
   */
  method NextState() returns (missing: Result<int, Error>, helper: Result<int, Error>, outer: Result<int, Error>)
    ensures missing == Err(NoMethodError("use_helper"))
    ensures helper == Ok(14) && outer == Ok(10)
  {
    var o := NewStateful();
    Enter(o, "next");
    ghost var o1 := o.Abs();
    NextLacksUseHelper(o1);
    OwnCalls(o1);
    missing := o.Call("use_helper", []);
    helper := o.Call("helper", []);
    outer := o.Call("outer", []);
  }

  lemma SubStateTable()
    ensures WellFormed([SUB_STATE, STATEFUL])
    ensures OwnOps([SUB_STATE, STATEFUL]) == STATEFUL_OWN
    ensures StartOf([SUB_STATE, STATEFUL]) == Some("another")
  {
    assert OwnFrom([SUB_STATE, STATEFUL], 2) == map[];
    assert OwnFrom([SUB_STATE, STATEFUL], 1) == STATEFUL_OWN;
  }

  /**
   * A `SubState` object starts in `another`, its own declaration, and resolves
   * `next` to `Stateful`'s declaration one class up; its own methods are `Stateful`'s.
   */
  lemma SubStateResolution()
    ensures WellFormed([SUB_STATE, STATEFUL])
    ensures OwnOps([SUB_STATE, STATEFUL]) == STATEFUL_OWN
    ensures StartOf([SUB_STATE, STATEFUL]) == Some("another")
    ensures Lookup([SUB_STATE, STATEFUL], "another") == Some(StateRef(ANOTHER, 0))
    ensures Lookup([SUB_STATE, STATEFUL], "next") == Some(StateRef(NEXT, 1))
  {
    SubStateTable();
    StatefulStates();
    InheritedState(SUB_STATE, [STATEFUL], "next");
    assert [SUB_STATE] + [STATEFUL] == [SUB_STATE, STATEFUL];
  }

  /** `another`'s `add(5, 2)` is Ruby's 5 % 2. */
  lemma AnotherAdd(scope: Scope)
    ensures Eval(ANOTHER.ops["add"], [5, 2], scope, STACK_DEPTH) == Ok(1)
  {
    assert FloorMod(5, 2) == 1;
  }

  /** A new `SubState` object. */
  method NewSubState() returns (o: StatefulObject)
    ensures fresh(o) && o.Valid() && WellFormed(Tables(o.ancestry))
    ensures Tables(o.ancestry) == [SUB_STATE, STATEFUL] && o.Abs() == FRESH
  {
    var stateful, subState := DefineClasses();
    o := new StatefulObject([subState, stateful]);
    assert Tables(o.ancestry) == [SUB_STATE, STATEFUL];
    SubStateResolution();
  }

  /** A new `SubState` object's first `current_state` resolves and keeps `another`. */
  lemma SubStateFirstQuery()
    ensures Current([SUB_STATE, STATEFUL], FRESH) ==
            (Some("another"), Obj(Some(StateRef(ANOTHER, 0)), map["another" := StateRef(ANOTHER, 0)]))
  {
    SubStateResolution();
  }

  /**
   * A new `SubState` object answers `another` as its current state, and then
   * `add(5, 2)` is another's 5 % 2 = 1.
   */
  lemma SubStateStarts()
    ensures Current([SUB_STATE, STATEFUL], FRESH).0 == Some("another")
    ensures Dispatch([SUB_STATE, STATEFUL], Current([SUB_STATE, STATEFUL], FRESH).1, "add", [5, 2]).0 == Ok(1)
  {
    SubStateFirstQuery();
    var o1 := Obj(Some(StateRef(ANOTHER, 0)), map["another" := StateRef(ANOTHER, 0)]);
    SubStateTable();
    StateMethodRuns([SUB_STATE, STATEFUL], o1, "add", [5, 2]);
    AnotherAdd(StateScope([SUB_STATE, STATEFUL], StateRef(ANOTHER, 0)));
  }

  /** The same, on a `SubState` object, with no explicit transition. */
  method SubclassStarts() returns (current: Option<Name>, rem: Result<int, Error>)
    ensures current == Some("another")
    ensures rem == Ok(1)
  {
    var o := NewSubState();
    ghost var anc := [SUB_STATE, STATEFUL];
    SubStateStarts();
    current := o.CurrentState();
    assert Tables(o.ancestry) == anc;
    ghost var o1 := o.Abs();
    assert o1 == Current(anc, FRESH).1;
    rem := o.Call("add", [5, 2]);
    assert rem == Dispatch(anc, o1, "add", [5, 2]).0;
  }

  /** A `SubState` object can enter `next`, which only its parent `Stateful` declares. */
  method SubclassEntersParentState() returns (entered: Result<StateRef, Error>)
    ensures entered == Ok(StateRef(NEXT, 1))
  {
    var o := NewSubState();
    SubStateResolution();
    FindIsLookup([SUB_STATE, STATEFUL], o.Abs(), "next");
    entered := o.ChangeState("next");
  }
}
