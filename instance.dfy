/**
 * The instance level of the mixin (`SolidState::InstanceMethods`).
 *
 * An object's mutable part is `Obj`: its current state (`@__current_state`) and
 * its memo of resolved states (`@__known_states`). The functions below say what
 * each instance method does to that value; the class `StatefulObject` at the
 * end performs the same steps in place and is proved to agree with them.
 */
module Instance {
  import opened Wrappers
  import opened Behaviour
  import opened Registry

  /** `@__current_state` and `@__known_states`. A `nil` memo entry is no entry. */
  datatype Obj = Obj(current: Option<StateRef>, known: map<Name, StateRef>)

  /** A newly constructed object: no current state, nothing resolved yet. */
  const FRESH: Obj := Obj(None, map[])

  /** Every state the object holds was declared by one of its `depth` ancestors. */
  ghost predicate Bounded(depth: nat, o: Obj) {
    (forall n :: n in o.known ==> o.known[n].home < depth) &&
    (o.current.Some? ==> o.current.value.home < depth)
  }

  /** Each memo entry is the state declared under its key. */
  ghost predicate Named(o: Obj) {
    forall n :: n in o.known ==> o.known[n].def.name == n
  }

  /**
   * The memo agrees with a fresh search. It holds from construction on as long
   * as no class redeclares a state the object has already resolved.
   */
  ghost predicate Coherent(anc: seq<ClassTable>, o: Obj) {
    forall n :: n in o.known ==> Lookup(anc, n) == Some(o.known[n])
  }

  /** The memo only grows: no entry is ever removed or replaced. */
  ghost predicate Grows(before: map<Name, StateRef>, after: map<Name, StateRef>) {
    forall n :: n in before ==> n in after && after[n] == before[n]
  }

  /**
   * The methods a state instance answers: its block's, then those its declaring
   * class and that class's ancestors define, the nearest definer winning.
   */
  function StateScope(anc: seq<ClassTable>, s: StateRef): (scope: Scope)
    requires s.home < |anc|
    ensures forall op :: op in scope <==> op in s.def.ops || exists i :: s.home <= i < |anc| && op in anc[i].own
    ensures forall op :: op in s.def.ops ==> scope[op] == s.def.ops[op]
    ensures forall i, op :: op !in s.def.ops && DefinesNearest(anc, s.home, i, op) ==> scope[op] == anc[i].own[op]
  {
    OwnFromNearest(anc, s.home);
    OwnFrom(anc, s.home) + s.def.ops
  }

  /** `_find_state(n)`: `@__known_states[n] ||= _get_state_const("State_#{n}")`. */
  function Find(anc: seq<ClassTable>, o: Obj, n: Name): (res: (Option<StateRef>, Obj))
    ensures res.1.current == o.current
    ensures Grows(o.known, res.1.known)
    ensures res.1.known.Keys <= o.known.Keys + {n}
    ensures res.0.Some? ==> n in res.1.known && res.1.known[n] == res.0.value
    ensures res.0.None? ==> res.1 == o
    ensures Bounded(|anc|, o) ==> Bounded(|anc|, res.1) && (res.0.Some? ==> res.0.value.home < |anc|)
    ensures WellFormed(anc) && Named(o) ==> Named(res.1) && (res.0.Some? ==> res.0.value.def.name == n)
  {
    if n in o.known then (Some(o.known[n]), o)
    else
      match Lookup(anc, n)
      case None => (None, o)
      case Some(s) => (Some(s), o.(known := o.known[n := s]))
  }

  /**
   * `current_state`: an unset current state is first set to the starting state
   * of the nearest class that declares one; the answer is the current state's name.
   */
  function Current(anc: seq<ClassTable>, o: Obj): (res: (Option<Name>, Obj))
    ensures res.0.Some? <==> res.1.current.Some?
    ensures res.1.current.Some? ==> res.0 == Some(res.1.current.value.def.name)
    ensures o.current.Some? ==> res.1 == o
    ensures Grows(o.known, res.1.known)
    ensures Bounded(|anc|, o) ==> Bounded(|anc|, res.1)
    ensures WellFormed(anc) && Named(o) ==> Named(res.1)
  {
    if o.current.Some? then (Some(o.current.value.def.name), o)
    else
      match StartOf(anc)
      case None => (None, o)
      case Some(s) =>
        var (found, o1) := Find(anc, o, s);
        (if found.Some? then Some(found.value.def.name) else None, o1.(current := found))
  }

  /**
   * `change_state!(n)`: resolves `n` and makes it current, or raises
   * `InvalidStateError` before anything is assigned.
   */
  function Change(anc: seq<ClassTable>, o: Obj, n: Name): (res: (Result<StateRef, Error>, Obj))
    ensures res.0.Err? ==> res.0.error == InvalidStateError(n) && res.1 == o
    ensures res.0.Ok? ==> res.1 == Obj(Some(res.0.value), o.known[n := res.0.value])
    ensures Grows(o.known, res.1.known)
    ensures Bounded(|anc|, o) ==> Bounded(|anc|, res.1)
    ensures WellFormed(anc) && Named(o) ==> Named(res.1) && (res.0.Ok? ==> res.0.value.def.name == n)
  {
    var (found, o1) := Find(anc, o, n);
    if found.None? then (Err(InvalidStateError(n)), o1)
    else (Ok(found.value), o1.(current := found))
  }

  /**
   * `method_missing(op, *args)`: materialises the current state, then forwards
   * the call if that state responds to `op`; otherwise `NoMethodError`. An unset
   * state responds to nothing.
   */
  function Missing(anc: seq<ClassTable>, o: Obj, op: OpName, args: seq<int>): (res: (Result<int, Error>, Obj))
    requires Bounded(|anc|, o)
    ensures res.1 == Current(anc, o).1
  {
    var o1 := Current(anc, o).1;
    if o1.current.Some? && op in StateScope(anc, o1.current.value) then
      var scope := StateScope(anc, o1.current.value);
      (Eval(scope[op], args, scope, STACK_DEPTH), o1)
    else (Err(NoMethodError(op)), o1)
  }

  /**
   * The integer-valued methods `nil` answers: `nil.to_i` is 0. (`nil` answers
   * others too, `to_a` and `to_s` among them, whose values are not integers.)
   */
  const NIL_METHODS: Scope := map["to_i" := Lit(0)]

  /**
   * `method_missing` as written: with no current state, `@__current_state` is
   * `nil`, and the call is forwarded whenever `nil` answers it.
   */
  function MissingAsWritten(anc: seq<ClassTable>, o: Obj, op: OpName, args: seq<int>): (res: (Result<int, Error>, Obj))
    requires Bounded(|anc|, o)
    ensures res.1 == Current(anc, o).1
    ensures res.1.current.Some? ==> res == Missing(anc, o, op, args)
  {
    var o1 := Current(anc, o).1;
    if o1.current.None? then
      if op in NIL_METHODS then (Eval(NIL_METHODS[op], args, NIL_METHODS, STACK_DEPTH), o1)
      else (Err(NoMethodError(op)), o1)
    else Missing(anc, o, op, args)
  }

  /**
   * With no state set, the object as written answers `to_i` with nil's 0
   * instead of raising `NoMethodError`, as `Missing` does.
   */
  lemma UnsetStateAnswersNilMethods(anc: seq<ClassTable>)
    requires forall i :: 0 <= i < |anc| ==> anc[i].start.None?
    ensures MissingAsWritten(anc, FRESH, "to_i", []) == (Ok(0), FRESH)
    ensures Missing(anc, FRESH, "to_i", []) == (Err(NoMethodError("to_i")), FRESH)
  {
    CurrentUnset(anc, FRESH);
  }

  /** Corrected: while no state is set, `method_missing` forwards nothing. */
  lemma UnsetStateAnswersNothing(anc: seq<ClassTable>, o: Obj, op: OpName, args: seq<int>)
    requires Bounded(|anc|, o)
    requires Current(anc, o).1.current.None?
    ensures Missing(anc, o, op, args) == (Err(NoMethodError(op)), o)
  {
  }

  /**
   * A call `obj.op(*args)`: the object's own methods answer first; only a call
   * they do not answer reaches `method_missing`.
   */
  function Dispatch(anc: seq<ClassTable>, o: Obj, op: OpName, args: seq<int>): (res: (Result<int, Error>, Obj))
    requires Bounded(|anc|, o)
    ensures Grows(o.known, res.1.known)
    ensures o.current.Some? ==> res.1 == o
    ensures Bounded(|anc|, res.1)
  {
    var own := OwnOps(anc);
    if op in own then (Eval(own[op], args, own, STACK_DEPTH), o)
    else Missing(anc, o, op, args)
  }

  // ---------------------------------------------------------------------------
  // Resolution and memoisation

  /** Memoisation is invisible while the memo agrees with the classes, and it keeps agreeing. */
  lemma FindIsLookup(anc: seq<ClassTable>, o: Obj, n: Name)
    requires Coherent(anc, o)
    ensures Find(anc, o, n).0 == Lookup(anc, n)
    ensures Coherent(anc, Find(anc, o, n).1)
  {
  }

  /** A second `_find_state(n)` returns the same state instance and changes nothing. */
  lemma FindTwice(anc: seq<ClassTable>, o: Obj, n: Name)
    ensures var (r, o1) := Find(anc, o, n);
            Find(anc, o1, n) == (r, o1)
  {
  }

  /**
   * Once resolved, a state is answered from the object's memo, whatever the
   * classes declare by then; a failed search leaves no entry and is retried.
   */
  lemma FindRemembers(anc: seq<ClassTable>, later: seq<ClassTable>, o: Obj, n: Name)
    ensures var (r, o1) := Find(anc, o, n);
            (r.Some? ==> Find(later, o1, n) == (r, o1)) &&
            (r.None? ==> n !in o1.known && Find(later, o1, n) == Find(later, o, n))
  {
  }

  // ---------------------------------------------------------------------------
  // Current state and transitions

  /** `change_state!(n)` succeeds iff some class in the ancestry declares `n`. */
  lemma ChangeSucceedsIffDeclared(anc: seq<ClassTable>, o: Obj, n: Name)
    requires Coherent(anc, o)
    ensures Change(anc, o, n).0.Ok? <==> exists i :: 0 <= i < |anc| && n in anc[i].states
    ensures Change(anc, o, n).0.Ok? ==> Change(anc, o, n).0 == Ok(Lookup(anc, n).value)
  {
    FindIsLookup(anc, o, n);
  }

  /** While the classes stay as they are, transitions keep the memo in agreement with them. */
  lemma ChangeKeepsCoherent(anc: seq<ClassTable>, o: Obj, n: Name)
    requires Coherent(anc, o)
    ensures Coherent(anc, Change(anc, o, n).1)
    ensures Change(anc, o, n).0.Ok? ==> Change(anc, o, n).1.current == Lookup(anc, n)
  {
    FindIsLookup(anc, o, n);
  }

  /**
   * After a successful `change_state!(n)`, `current_state` answers `n` and
   * changes nothing, whatever starting state any class declares.
   */
  lemma ChangeThenCurrent(anc: seq<ClassTable>, o: Obj, n: Name, later: seq<ClassTable>)
    requires WellFormed(anc) && Named(o)
    requires Change(anc, o, n).0.Ok?
    ensures var o1 := Change(anc, o, n).1;
            Current(later, o1) == (Some(n), o1)
  {
  }

  /** A rejected `change_state!` leaves the current state, and everything else, as it was. */
  lemma ChangeRejected(anc: seq<ClassTable>, o: Obj, n: Name)
    requires Coherent(anc, o)
    requires forall i :: 0 <= i < |anc| ==> n !in anc[i].states
    ensures Change(anc, o, n) == (Err(InvalidStateError(n)), o)
  {
    FindIsLookup(anc, o, n);
  }

  /**
   * With no starting state declared and no transition made, `current_state`
   * is `nil` and stores nothing, so the next query looks again.
   */
  lemma CurrentUnset(anc: seq<ClassTable>, o: Obj)
    requires o.current.None?
    requires forall i :: 0 <= i < |anc| ==> anc[i].start.None?
    ensures Current(anc, o) == (None, o)
  {
  }

  /**
   * With starting state `s` declared by the nearest class that declares one and
   * no transition made, the first `current_state` resolves `s`, keeps it and
   * answers `s`.
   */
  lemma CurrentStarts(anc: seq<ClassTable>, o: Obj, s: Name)
    requires WellFormed(anc) && Coherent(anc, o)
    requires o.current.None?
    requires StartOf(anc) == Some(s) && Lookup(anc, s).Some?
    ensures Current(anc, o).0 == Some(s)
    ensures Current(anc, o).1.current == Lookup(anc, s)
    ensures Coherent(anc, Current(anc, o).1)
  {
    FindIsLookup(anc, o, s);
  }

  // ---------------------------------------------------------------------------
  // Dispatch

  /** A method the object has itself runs the object's version, in every state, and changes nothing. */
  lemma OwnMethodWins(anc: seq<ClassTable>, o: Obj, op: OpName, args: seq<int>)
    requires Bounded(|anc|, o)
    requires exists i :: 0 <= i < |anc| && op in anc[i].own
    ensures op in OwnOps(anc)
    ensures Dispatch(anc, o, op, args) == (Eval(OwnOps(anc)[op], args, OwnOps(anc), STACK_DEPTH), o)
  {
    OwnFromNearest(anc, 0);
  }

  /** Otherwise a method of the current state's block runs the state's version. */
  lemma StateMethodRuns(anc: seq<ClassTable>, o: Obj, op: OpName, args: seq<int>)
    requires Bounded(|anc|, o)
    requires forall i :: 0 <= i < |anc| ==> op !in anc[i].own
    requires o.current.Some? && op in o.current.value.def.ops
    ensures Dispatch(anc, o, op, args) ==
            (Eval(o.current.value.def.ops[op], args, StateScope(anc, o.current.value), STACK_DEPTH), o)
  {
    OwnFromNearest(anc, 0);
  }

  /**
   * A call answered neither by the object nor by its (materialised) current
   * state raises `NoMethodError`.
   */
  lemma NeitherRaises(anc: seq<ClassTable>, o: Obj, op: OpName, args: seq<int>)
    requires Bounded(|anc|, o)
    requires forall i :: 0 <= i < |anc| ==> op !in anc[i].own
    requires var o1 := Current(anc, o).1;
             o1.current.None? || op !in o1.current.value.def.ops
    ensures Dispatch(anc, o, op, args) == (Err(NoMethodError(op)), Current(anc, o).1)
  {
    OwnFromNearest(anc, 0);
    var o1 := Current(anc, o).1;
    if o1.current.Some? {
      var s := o1.current.value;
      OwnFromNearest(anc, s.home);
      assert op !in StateScope(anc, s);
    }
  }

  /**
   * Dispatch materialises the starting state first, so an object can use the
   * starting state's methods without any explicit transition.
   */
  lemma DispatchUsesStartingState(anc: seq<ClassTable>, o: Obj, s: Name, op: OpName, args: seq<int>)
    requires Coherent(anc, o) && Bounded(|anc|, o)
    requires o.current.None?
    requires StartOf(anc) == Some(s) && Lookup(anc, s).Some?
    requires forall i :: 0 <= i < |anc| ==> op !in anc[i].own
    requires op in Lookup(anc, s).value.def.ops
    ensures var r := Lookup(anc, s).value;
            Dispatch(anc, o, op, args).0 == Eval(r.def.ops[op], args, StateScope(anc, r), STACK_DEPTH)
    ensures Dispatch(anc, o, op, args).1.current == Lookup(anc, s)
  {
    FindIsLookup(anc, o, s);
    OwnFromNearest(anc, 0);
  }

  /** An object that includes the mixin; `ancestry` is its class's `ancestors`. */
  class StatefulObject {
    const ancestry: seq<HostClass>
    var current: Option<StateRef>
    var known: map<Name, StateRef>

    function Abs(): Obj
      reads this
    {
      Obj(current, known)
    }

    ghost predicate Valid()
      reads this
    {
      Bounded(|ancestry|, Abs()) && Named(Abs())
    }

    constructor (ancestry: seq<HostClass>)
      ensures this.ancestry == ancestry
      ensures Abs() == FRESH && Valid()
    {
      this.ancestry := ancestry;
      current := None;
      known := map[];
    }

    /** `_get_state_const`: walks the ancestors, most-derived first, returning at the first declaration. */
    method GetStateConst(n: Name) returns (r: Option<StateRef>)
      ensures r == Lookup(Tables(ancestry), n)
    {
      ghost var anc := Tables(ancestry);
      var i := 0;
      while i < |ancestry|
        invariant 0 <= i <= |ancestry|
        invariant LookupFrom(anc, n, i) == LookupFrom(anc, n, 0)
      {
        if n in ancestry[i].states {
          return Some(StateRef(ancestry[i].states[n], i));
        }
        i := i + 1;
      }
      return None;
    }

    /** `_find_state`. */
    method FindState(n: Name) returns (r: Option<StateRef>)
      requires Valid() && WellFormed(Tables(ancestry))
      modifies this
      ensures Valid() && Tables(ancestry) == old(Tables(ancestry))
      ensures (r, Abs()) == Find(Tables(ancestry), old(Abs()), n)
    {
      ghost var anc, o := Tables(ancestry), Abs();
      if n in known {
        return Some(known[n]);
      }
      r := GetStateConst(n);
      if r.Some? {
        known := known[n := r.value];
      }
      assert Tables(ancestry) == anc;
      assert (r, Abs()) == Find(anc, o, n);
    }

    /** `current_state`. */
    method CurrentState() returns (r: Option<Name>)
      requires Valid() && WellFormed(Tables(ancestry))
      modifies this
      ensures Valid() && Tables(ancestry) == old(Tables(ancestry))
      ensures (r, Abs()) == Current(Tables(ancestry), old(Abs()))
    {
      ghost var anc, o := Tables(ancestry), Abs();
      if current.None? {
        var start := StartOf(Tables(ancestry));
        if start.Some? {
          var found := FindState(start.value);
          current := found;
        }
      }
      r := if current.Some? then Some(current.value.def.name) else None;
      assert Tables(ancestry) == anc;
      assert (r, Abs()) == Current(anc, o);
    }

    /** `change_state!`. */
    method ChangeState(n: Name) returns (r: Result<StateRef, Error>)
      requires Valid() && WellFormed(Tables(ancestry))
      modifies this
      ensures Valid() && Tables(ancestry) == old(Tables(ancestry))
      ensures (r, Abs()) == Change(Tables(ancestry), old(Abs()), n)
    {
      var found := FindState(n);
      if found.None? {
        return Err(InvalidStateError(n));
      }
      current := found;
      r := Ok(found.value);
    }

    /** `method_missing`. */
    method MethodMissing(op: OpName, args: seq<int>) returns (r: Result<int, Error>)
      requires Valid() && WellFormed(Tables(ancestry))
      modifies this
      ensures Valid() && Tables(ancestry) == old(Tables(ancestry))
      ensures (r, Abs()) == Missing(Tables(ancestry), old(Abs()), op, args)
    {
      var _ := CurrentState();
      if current.Some? {
        var scope := StateScope(Tables(ancestry), current.value);
        if op in scope {
          return Eval(scope[op], args, scope, STACK_DEPTH);
        }
      }
      r := Err(NoMethodError(op));
    }

    /** A call `obj.op(*args)`. */
    method Call(op: OpName, args: seq<int>) returns (r: Result<int, Error>)
      requires Valid() && WellFormed(Tables(ancestry))
      modifies this
      ensures Valid() && Tables(ancestry) == old(Tables(ancestry))
      ensures (r, Abs()) == Dispatch(Tables(ancestry), old(Abs()), op, args)
    {
      var own := OwnOps(Tables(ancestry));
      if op in own {
        return Eval(own[op], args, own, STACK_DEPTH);
      }
      r := MethodMissing(op, args);
    }
  }
}
