/**
 * The class level of the mixin (`SolidState::ClassMethods`).
 *
 * Every class in an object's ancestry contributes a `ClassTable`: the states it
 * declares (the `State_<name>` constants set by `state`), the starting state it
 * declares (the `__start_state` method defined by `starting_state`) and the
 * methods it defines outside any state block. An ancestry is a sequence of
 * tables, most-derived class first, as Ruby's `ancestors` lists them.
 *
 * Each of the three is resolved the way Ruby resolves it: the nearest class
 * that defines the thing wins.
 */
module Registry {
  import opened Wrappers
  import opened Behaviour

  /** A declared state: the name `state_name` answers, and the methods of its block. */
  datatype StateDef = StateDef(name: Name, ops: Scope)

  /** What one class declares. */
  datatype ClassTable = ClassTable(states: map<Name, StateDef>, start: Option<Name>, own: Scope)

  /**
   * A state instance: the declaration it was created from and the ancestry
   * index of the class that declared it. A state class is a subclass of its
   * declaring class, so that index also says whose methods its bodies can call.
   */
  datatype StateRef = StateRef(def: StateDef, home: nat)

  /** Each state constant answers `state_name` with the name it was declared under. */
  ghost predicate TableOk(t: ClassTable) {
    forall n :: n in t.states ==> t.states[n].name == n
  }

  ghost predicate WellFormed(anc: seq<ClassTable>) {
    forall i :: 0 <= i < |anc| ==> TableOk(anc[i])
  }

  /** Class `i` is the first class at or after `from` that declares state `n`. */
  ghost predicate DeclaresNearest(anc: seq<ClassTable>, from: nat, i: int, n: Name) {
    from <= i < |anc| && n in anc[i].states &&
    forall j :: from <= j < i ==> n !in anc[j].states
  }

  /** Class `i` is the first class at or after `from` that defines method `op` itself. */
  ghost predicate DefinesNearest(anc: seq<ClassTable>, from: nat, i: int, op: OpName) {
    from <= i < |anc| && op in anc[i].own &&
    forall j :: from <= j < i ==> op !in anc[j].own
  }

  /** Searches `anc[from..]` for state `n`, nearest class first. */
  function LookupFrom(anc: seq<ClassTable>, n: Name, from: nat): (r: Option<StateRef>)
    requires from <= |anc|
    decreases |anc| - from
    ensures r.Some? ==> DeclaresNearest(anc, from, r.value.home, n) &&
                        r.value.def == anc[r.value.home].states[n]
    ensures r.None? <==> forall j :: from <= j < |anc| ==> n !in anc[j].states
  {
    if from == |anc| then None
    else if n in anc[from].states then Some(StateRef(anc[from].states[n], from))
    else LookupFrom(anc, n, from + 1)
  }

  /**
   * `_get_state_const`: the state `n` of the nearest class that declares it,
   * or `None` (no exception) when no class in the ancestry declares it.
   */
  function Lookup(anc: seq<ClassTable>, n: Name): (r: Option<StateRef>)
    ensures r.Some? <==> exists i :: 0 <= i < |anc| && n in anc[i].states
    ensures r.Some? ==> DeclaresNearest(anc, 0, r.value.home, n) &&
                        r.value.def == anc[r.value.home].states[n]
    ensures r.Some? && WellFormed(anc) ==> r.value.def.name == n
  {
    LookupFrom(anc, n, 0)
  }

  /** The starting state of the nearest class at or after `from` that declares one. */
  function StartFrom(anc: seq<ClassTable>, from: nat): (r: Option<Name>)
    requires from <= |anc|
    decreases |anc| - from
    ensures r.None? <==> forall j :: from <= j < |anc| ==> anc[j].start.None?
    ensures r.Some? ==> exists i :: from <= i < |anc| && anc[i].start == r &&
                                    forall j :: from <= j < i ==> anc[j].start.None?
  {
    if from == |anc| then None
    else if anc[from].start.Some? then anc[from].start
    else StartFrom(anc, from + 1)
  }

  /** `respond_to?(:__start_state) ? __start_state : nil` for an object with ancestry `anc`. */
  function StartOf(anc: seq<ClassTable>): Option<Name> {
    StartFrom(anc, 0)
  }

  /**
   * The methods an instance of `anc[from]` has outside any state, each answered
   * by the nearest class that defines it (see `OwnFromNearest`).
   */
  function OwnFrom(anc: seq<ClassTable>, from: nat): Scope
    requires from <= |anc|
    decreases |anc| - from
  {
    if from == |anc| then map[] else OwnFrom(anc, from + 1) + anc[from].own
  }

  /** A method is an own method iff some class at or after `from` defines it. */
  lemma {:induction false} OwnFromDomain(anc: seq<ClassTable>, from: nat, op: OpName)
    requires from <= |anc|
    decreases |anc| - from
    ensures op in OwnFrom(anc, from) <==> exists i :: from <= i < |anc| && op in anc[i].own
  {
    if from < |anc| {
      OwnFromDomain(anc, from + 1, op);
      if op in anc[from].own {
        assert from <= from < |anc| && op in anc[from].own;
      }
    }
  }

  /** The nearest class that defines an own method answers it. */
  lemma {:induction false} OwnFromValue(anc: seq<ClassTable>, from: nat, i: int, op: OpName)
    requires from <= |anc|
    requires DefinesNearest(anc, from, i, op)
    decreases |anc| - from
    ensures op in OwnFrom(anc, from) && OwnFrom(anc, from)[op] == anc[i].own[op]
  {
    if i > from {
      assert DefinesNearest(anc, from + 1, i, op);
      OwnFromValue(anc, from + 1, i, op);
    }
  }

  /** A method is an own method iff some class defines it, and the nearest such class answers it. */
  lemma OwnFromNearest(anc: seq<ClassTable>, from: nat)
    requires from <= |anc|
    ensures forall op :: op in OwnFrom(anc, from) <==> exists i :: from <= i < |anc| && op in anc[i].own
    ensures forall i, op :: DefinesNearest(anc, from, i, op) ==>
              op in OwnFrom(anc, from) && OwnFrom(anc, from)[op] == anc[i].own[op]
  {
    forall op
      ensures op in OwnFrom(anc, from) <==> exists i :: from <= i < |anc| && op in anc[i].own
    {
      OwnFromDomain(anc, from, op);
    }
    forall i, op | DefinesNearest(anc, from, i, op)
      ensures op in OwnFrom(anc, from) && OwnFrom(anc, from)[op] == anc[i].own[op]
    {
      OwnFromValue(anc, from, i, op);
    }
  }

  /** The object's own methods: those its class and its ancestors define outside any state. */
  function OwnOps(anc: seq<ClassTable>): Scope {
    OwnFrom(anc, 0)
  }

  /** Shifting a whole ancestry by one class shifts every search result by one. */
  lemma {:induction false} LookupFromShift(sub: ClassTable, parents: seq<ClassTable>, n: Name, from: nat)
    requires from <= |parents|
    ensures LookupFrom([sub] + parents, n, from + 1) ==
            match LookupFrom(parents, n, from)
            case None => None
            case Some(s) => Some(StateRef(s.def, s.home + 1))
    decreases |parents| - from
  {
    var anc := [sub] + parents;
    assert anc[from + 1..] == parents[from..];
    if from < |parents| {
      assert anc[from + 1] == parents[from];
      LookupFromShift(sub, parents, n, from + 1);
    }
  }

  /**
   * A subclass that does not declare `n` itself resolves it exactly as its
   * parent's ancestry does: it can enter states declared only on an ancestor.
   */
  lemma InheritedState(sub: ClassTable, parents: seq<ClassTable>, n: Name)
    requires n !in sub.states
    ensures Lookup([sub] + parents, n) ==
            match Lookup(parents, n)
            case None => None
            case Some(s) => Some(StateRef(s.def, s.home + 1))
  {
    LookupFromShift(sub, parents, n, 0);
  }

  /** A state redeclared on a subclass shadows every ancestor's declaration of it. */
  lemma ShadowedState(sub: ClassTable, parents: seq<ClassTable>, n: Name)
    requires n in sub.states
    ensures Lookup([sub] + parents, n) == Some(StateRef(sub.states[n], 0))
  {
  }

  /** A class in Ruby: the tables that `state` and `starting_state` fill in place. */
  class HostClass {
    /** The methods the class body defines outside any state block. */
    const own: Scope
    /** The `State_<name>` constants. */
    var states: map<Name, StateDef>
    /** The name `__start_state` answers, once `starting_state` was called. */
    var start: Option<Name>

    ghost predicate Valid()
      reads this
    {
      TableOk(Table())
    }

    function Table(): ClassTable
      reads this
    {
      ClassTable(states, start, own)
    }

    constructor (own: Scope)
      ensures Valid()
      ensures Table() == ClassTable(map[], None, own)
    {
      this.own := own;
      states := map[];
      start := None;
    }

    /** `state(name, &block)`: sets (or replaces: last write wins) the constant `State_<name>`. */
    method DeclareState(n: Name, ops: Scope)
      requires Valid()
      modifies this
      ensures Valid()
      ensures Table() == old(Table()).(states := old(states)[n := StateDef(n, ops)])
    {
      states := states[n := StateDef(n, ops)];
    }

    /** `starting_state(name)`: (re)defines `__start_state` to answer `n`. */
    method StartingState(n: Name)
      requires Valid()
      modifies this
      ensures Valid()
      ensures Table() == old(Table()).(start := Some(n))
    {
      start := Some(n);
    }
  }

  /** The tables of a sequence of classes, in the same order. */
  function Tables(classes: seq<HostClass>): (ts: seq<ClassTable>)
    reads classes
    ensures |ts| == |classes|
    ensures forall i :: 0 <= i < |classes| ==> ts[i] == classes[i].Table()
  {
    seq(|classes|, i requires 0 <= i < |classes| reads classes => classes[i].Table())
  }
}
