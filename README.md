# solid_state in Dafny

A model of `SolidState`, a Ruby mixin that implements the State pattern.
A class that includes it declares named states with `state :name do ... end`.
Each block holds the methods that apply while the object is in that state.
`starting_state :name` chooses the state a new object starts in.
An object switches state with `change_state!`.
A call the object does not answer itself goes to `method_missing`.
That method forwards the call to the current state, or raises `NoMethodError`.

Files and modules:

- `wrappers.dfy` (`Wrappers`): `Option` (Ruby's `nil`) and `Result` (a raised exception).
- `behaviour.dfy` (`Behaviour`): state and method names, the errors, and a small expression language for method bodies.
  The mixin never looks inside a body. The language lets the test suite's `add`, `outer`, `helper` and `use_helper` be stated.
- `registry.dfy` (`Registry`): the class level.
  - A class is a `ClassTable`: its `State_<name>` constants, its `__start_state` and its own methods.
  - An object's ancestry is a sequence of tables, most-derived class first.
  - Resolution finds the nearest class that declares a state (`Lookup`), the nearest starting state (`StartOf`) and the nearest definition of each own method (`OwnOps`).
  - The class `HostClass` performs `state` and `starting_state` in place.
- `instance.dfy` (`Instance`): the instance level.
  - `Obj` holds `@__current_state` and `@__known_states`.
  - `Find`, `Current`, `Change`, `Missing` and `Dispatch` say what `_find_state`, `current_state`, `change_state!`, `method_missing` and a call do to an `Obj`.
  - The class `StatefulObject` performs the same steps on its fields. Its methods are proved to agree with those functions.
- `scenario.dfy` (`Scenario`): the test suite's classes `Stateful` and `SubState < Stateful`, and what the suite expects of them.

Three behaviours of the code shape the model:

- The memo of resolved states belongs to each object (`@__known_states`), not to the class.
  Two objects resolve, and keep, their own state instances.
- A state's methods do not run on the object itself.
  They run on a state instance, whose class is a subclass of the class that declared the state (`Class.new(self)`).
  So a state method can call the methods of that declaring class and its ancestors (`StateScope`). It cannot call methods that only a subclass defines.
- With no starting state declared, `current_state` still performs `@__current_state ||= nil`. That assignment leaves the object as it was.

## Model

| member | source | states |
|---|---|---|
| `Registry.HostClass.DeclareState` | lib/solid_state.rb:14-18 | the class's table afterwards holds the state `n` with the given methods and with `state_name` equal to `n`. A previous declaration of `n` is replaced (last write wins). Nothing else changes. |
| `Registry.HostClass.StartingState` | lib/solid_state.rb:21-23 | the class's starting state becomes `n`. Nothing else changes. |
| `Registry.LookupFrom` | lib/solid_state.rb:72-78 | scanning from class `from`: it returns the declaration of the first class at or after `from` that declares `n`. It returns `None` exactly when no class from there on declares `n`. |
| `Registry.Lookup` | lib/solid_state.rb:71-79 | it finds a state iff some ancestor declares `n`. The result comes from the nearest declaring ancestor. Its `state_name` is `n`. Absence is `None`, not an exception. |
| `Registry.StartFrom` | lib/solid_state.rb:31-32 | the starting state is the one declared by the nearest class that declares one. It is `None` iff no ancestor declares one. |
| `Registry.OwnFromNearest` | lib/solid_state.rb:43-44 | an object has its own method `op` iff some ancestor defines `op`, and the nearest such ancestor's body answers it. |
| `Registry.LookupFromShift` | lib/solid_state.rb:72-78 | putting one more class in front of an ancestry shifts every search result by one position. Nothing else changes. |
| `Registry.InheritedState` | lib/solid_state.rb:67-79 | a subclass that does not declare `n` resolves it exactly as its parent does. So it can enter states declared only on an ancestor. |
| `Registry.ShadowedState` | lib/solid_state.rb:71-75 | a state that a subclass redeclares resolves to the subclass's declaration. |
| `Instance.StateScope` | lib/solid_state.rb:15 | a state instance (`Class.new(self)` of the declaring class) answers exactly its block's methods and the own methods of its declaring class and that class's ancestors. A block method runs the block's body; any other runs the nearest definer's body. |
| `Instance.Find` | lib/solid_state.rb:60-65 | the current state is unchanged and the memo only grows, by `n` at most. A found state is memoised under `n`. A failed search changes nothing, so it is retried. Well-formed classes give the state named `n`. |
| `Instance.Current` | lib/solid_state.rb:30-34 | the answer is the name of the current state afterwards, or `nil` iff none is set. A state that is already set is never replaced. The memo only grows. |
| `Instance.Change` | lib/solid_state.rb:37-41 | on failure it gives `InvalidStateError(n)` and the object is exactly as before. On success the found state becomes current and is memoised under `n`, and no other memo entry changes. Its name is `n`. |
| `Instance.Missing` | lib/solid_state.rb:44-52 | the object afterwards is the one `current_state` leaves: the current state is materialised first. |
| `Instance.Dispatch` | lib/solid_state.rb:43-52 | a call never shrinks the memo and never replaces a current state that is already set. |
| `Instance.FindIsLookup` | lib/solid_state.rb:60-65 | while the memo agrees with the classes, `_find_state` answers what a fresh ancestor search answers, and the memo keeps agreeing. |
| `Instance.FindTwice` | lib/solid_state.rb:56-65 | a second `_find_state(n)` returns the same state instance and changes nothing. |
| `Instance.FindRemembers` | lib/solid_state.rb:64 | a resolved state keeps being answered from the memo, even after the classes change. A failed search leaves no entry, so a later search looks again. |
| `Instance.ChangeSucceedsIffDeclared` | lib/solid_state.rb:37-41 | `change_state!(n)` succeeds iff some ancestor declares `n`. Its result is then the nearest declaration. |
| `Instance.ChangeKeepsCoherent` | lib/solid_state.rb:37-41 | while the classes do not change, transitions keep the memo in agreement with them. On success, the current state is the resolved one. |
| `Instance.ChangeThenCurrent` | lib/solid_state.rb:37-41 | after a successful `change_state!(n)`, `current_state` answers `n` and changes nothing. This holds whatever starting state any class declares. |
| `Instance.ChangeRejected` | lib/solid_state.rb:38-40 | `change_state!` with a name no ancestor declares raises `InvalidStateError(n)` and leaves the object exactly as before. |
| `Instance.CurrentUnset` | lib/solid_state.rb:30-33 | with no starting state and no transition, `current_state` is `nil` and stores nothing. |
| `Instance.CurrentStarts` | lib/solid_state.rb:31-33 | with starting state `s` and no transition, the first `current_state` answers `s` and keeps the resolved state as current. |
| `Instance.OwnMethodWins` | lib/solid_state.rb:43-44 | a method the object has itself runs the object's version in every state, and the call changes nothing. |
| `Instance.StateMethodRuns` | lib/solid_state.rb:47-48 | otherwise, a method of the current state's block runs the state's version. |
| `Instance.NeitherRaises` | lib/solid_state.rb:47-50 | a call answered neither by the object nor by its materialised current state raises `NoMethodError`. |
| `Instance.DispatchUsesStartingState` | lib/solid_state.rb:45-48 | a call first materialises the starting state. So the starting state's methods answer without any explicit transition. |
| `Instance.MissingAsWritten` | lib/solid_state.rb:44-52 | as written: with a current state it agrees with `Missing`. Without one, it forwards to `nil`. |
| `Instance.UnsetStateAnswersNilMethods` | lib/solid_state.rb:47-48 | as written, an object with no state answers `to_i` with 0, where `Missing` raises `NoMethodError`. |
| `Instance.UnsetStateAnswersNothing` | lib/solid_state.rb:44-52 | corrected: with no state set, every call that reaches `method_missing` raises `NoMethodError` and changes nothing. |
| `Instance.StatefulObject.constructor` | lib/solid_state.rb:56-58 | a new object has no current state and an empty memo. |
| `Instance.StatefulObject.GetStateConst` | lib/solid_state.rb:71-79 | the loop over the ancestors, with its early return, gives exactly `Lookup` of the classes' current tables. |
| `Instance.StatefulObject.FindState` | lib/solid_state.rb:60-65 | the result and the new fields are those of `Find` on the old fields. |
| `Instance.StatefulObject.CurrentState` | lib/solid_state.rb:30-34 | the result and the new fields are those of `Current` on the old fields. |
| `Instance.StatefulObject.ChangeState` | lib/solid_state.rb:37-41 | the result and the new fields are those of `Change` on the old fields. |
| `Instance.StatefulObject.MethodMissing` | lib/solid_state.rb:44-52 | the result and the new fields are those of `Missing` on the old fields. |
| `Instance.StatefulObject.Call` | lib/solid_state.rb:43-52 | the result and the new fields are those of `Dispatch` on the old fields. |
| `Behaviour.FloorMod` | test/solid_state_test.rb:59-61 | Ruby's `%`: the remainder lies between 0 and the divisor, takes the divisor's sign, and differs from the Euclidean remainder by 0 or the divisor. |
| `Behaviour.Apply` | test/solid_state_test.rb:21-61 | the Integer operators of the test suite's `add` bodies (`+`, `-`, `*`, `%`) raise exactly when `%` has a zero divisor (`ZeroDivisionError`). |
| `Behaviour.EvalDepth` | test/solid_state_test.rb:21-61 | running a method body (its arguments, operators and calls to the receiver's other methods, as `use_helper` calls `helper`): the nesting limit only turns a call into `SystemStackError`, and every other result is the same under any larger limit. |
| `Scenario.DefineClasses` | test/solid_state_test.rb:8-67 | the classes `Stateful` and `SubState` have exactly the tables the test suite declares. |
| `Scenario.StatefulResolution` | test/solid_state_test.rb:19-52 | `Stateful` resolves `start`, `next` and `last` to its own declarations. It has no starting state and no `fail_state`. Its own methods are `helper` and `outer`. |
| `Scenario.QueryAndChange` | test/solid_state_test.rb:77-81 | a new `Stateful` has no current state. After `change_state! :start` it is in `start`. |
| `Scenario.InvalidChoice` | test/solid_state_test.rb:88-94 | `change_state! :fail_state` raises `InvalidStateError`, and the state stays unset. |
| `Scenario.StartingState` | test/solid_state_test.rb:96-99 | after `Stateful.starting_state :start`, a new object is in `start`. |
| `Scenario.AddTwoFour` | test/solid_state_test.rb:19-52 | the bodies of `add` in `start`, `next` and `last` give 6, -2 and 8 on `(2, 4)`, whatever else the receiver answers. |
| `Scenario.PerStateAdd` | test/solid_state_test.rb:105-114 | `add(2, 4)` is 6, -2 and 8 in `start`, `next` and `last`. |
| `Scenario.UseHelper` | test/solid_state_test.rb:25-27 | `start`'s `use_helper` reaches `helper`, which its state instance inherits from `Stateful`, and gives 14. |
| `Scenario.OwnCalls` | test/solid_state_test.rb:11-17 | `Stateful`'s own `helper` and `outer` answer 14 and 10 in every state, and the call changes nothing. |
| `Scenario.HelperFromState` | test/solid_state_test.rb:116-120 | `use_helper` in `start` reaches the object's `helper`, 14. `helper` itself is 14. |
| `Scenario.NextLacksUseHelper` | test/solid_state_test.rb:122-126 | in `next`, `use_helper` raises `NoMethodError` and changes nothing. |
| `Scenario.NextState` | test/solid_state_test.rb:122-133 | in `next`, `use_helper` raises `NoMethodError`, `helper` is 14, and `outer` is the object's 10, not the state's 20. |
| `Scenario.AnotherAdd` | test/solid_state_test.rb:59-61 | `another`'s `add(5, 2)` is 1. |
| `Scenario.SubStateResolution` | test/solid_state_test.rb:55-67 | a `SubState` object starts in `another` and resolves `next` to `Stateful`'s declaration, one class up. Its own methods are `Stateful`'s. |
| `Scenario.SubStateFirstQuery` | test/solid_state_test.rb:139-141 | a new `SubState` object's first `current_state` answers `another`, keeps that state as current and memoises it. |
| `Scenario.SubStateStarts` | test/solid_state_test.rb:139-142 | on the values: a new `SubState` object is in `another`, and `add(5, 2)` is 1 with no explicit transition. |
| `Scenario.SubclassStarts` | test/solid_state_test.rb:139-142 | the same, on a `SubState` object. |
| `Scenario.SubclassEntersParentState` | test/solid_state_test.rb:144-146 | a `SubState` object can enter `Stateful`'s `next` without `InvalidStateError`. |

## Findings

| source | as written | input that shows it | evidently intended | confidence | as-written member | corrected member |
|---|---|---|---|---|---|---|
| lib/solid_state.rb:47-48 | with no current state, `method_missing` asks `nil.respond_to?(name)` and forwards the call to `nil` when nil answers it | `Stateful.new.to_i` (no starting state, no transition) returns `0` | a call with no current state and no own method raises `NoMethodError` | medium, not executed | `Instance.UnsetStateAnswersNilMethods` | `Instance.UnsetStateAnswersNothing` |

## Left out

- Ruby's reflection (`const_set`, `Class.new`, `class_eval`, `define_method`, `send`, `respond_to?`, `ancestors`) becomes explicit tables and sequences.
  - `const_defined?` with `inherit = true` makes the result "nearest declaring ancestor", which `Lookup` states directly.
  - A constant `State_<name>` defined at the top level, which `const_defined?` on `Object` would also find, is not modelled.
- Including the mixin (`SolidState.included`, lib/solid_state.rb:6-9) is modelled by building a `StatefulObject` over its class's ancestry.
  - The mixin's modules, `Object`, `Kernel` and `BasicObject` contribute no states and no methods.
  - The methods every Ruby object has (`to_s`, `inspect`, ...) are not among an object's own methods.
- State instances are values: a declaration together with the position of its declaring class. Each resolution yields the same value.
  - The model has no object identity.
  - State objects have no instance variables.
  - A state object's own `@__current_state` and `method_missing` are not modelled.
- Names that make no valid Ruby constant: `state`, `change_state!` and `current_state` build the constant name `State_<name>` (lib/solid_state.rb:15, 61). For a name such as `"a-b"` or `"fail state"`, `const_set` and `const_defined?` raise `NameError`. The model accepts every string as a state name: such a state can be declared, and looking up an undeclared one gives `InvalidStateError`.
- State and method names are strings. Ruby's distinction between `:start` and `"start"`, which name the same constant, is not modelled.
- `state_name` reached through `method_missing` is not modelled: the model's calls return integers only. Neither is a state block that redefines `state_name`.
- Method bodies are a small integer expression language. This covers the test suite's bodies, not arbitrary Ruby. In that language:
  - Arity is not checked. Reading a missing argument gives `ArgumentError`.
  - A body's self-call without arguments is resolved on the receiver's own methods only. An own method's self-call never reaches `method_missing`.
  - `STACK_DEPTH` (10000 nested self-calls) stands in for Ruby's `SystemStackError`, whose actual depth depends on the VM.
- Instance.Missing: its contract states only the object it leaves. What the call returns is stated by `NeitherRaises`, `StateMethodRuns` and `DispatchUsesStartingState`.
- Instance.Dispatch: its contract states only how the object changes. What the call returns is stated by `OwnMethodWins`, `StateMethodRuns`, `NeitherRaises` and `DispatchUsesStartingState`.
- Exception messages and `nil` entries in `@__known_states` are not modelled. `h[n] ||= nil` stores a `nil` value, which reads exactly like no entry.
- The test file's class-level change `Stateful.starting_state :start` (test/solid_state_test.rb:97) is modelled only inside `Scenario.StartingState`. Test order is not modelled.
- Concurrency: the source has none and does no locking.
