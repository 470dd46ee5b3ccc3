/** The pure parts of method definition: the effective visibility rule, the
    writer-name derivation, and the ordered calls `add_method` makes to its
    collaborators. The method-cache generation of a name is the number of
    cache resets for it in the trace of calls. */
module Definition {
  import opened Objects

  /** A class whose `__metaclass_object__` is set: a singleton class. */
  predicate IsSingletonClass(mod: Module) {
    mod.isClass && mod.attached.Some?
  }

  /** Whether `obj`, whose singleton class has method table `table`, responds
      to `singleton_method_added`. An entry in the singleton class decides
      (public with a body); without one, the receiver's own class does. */
  predicate RespondsToSingletonMethodAdded(obj: Obj, table: map<string, Entry>) {
    if "singleton_method_added" in table then
      table["singleton_method_added"].body.Some? && table["singleton_method_added"].visibility == Public
    else
      obj.Instance? && obj.respondsToSingletonMethodAdded
  }

  /** A singleton class of a Numeric that, with method table `table`, does not
      respond to `singleton_method_added`: defining on it raises. */
  predicate NumericRestricted(mod: Module, table: map<string, Entry>) {
    IsSingletonClass(mod) && mod.attached.value.Instance? && mod.attached.value.numeric &&
    !RespondsToSingletonMethodAdded(mod.attached.value, table)
  }

  /** The visibility `add_method` stores for `name` when asked for `vis`
      (None is nil) on a singleton class or not. */
  function EffectiveVisibility(name: string, vis: Option<Vis>, singleton: bool): (v: Vis)
    ensures singleton ==> v == vis.GetOr(Public)
    ensures !singleton ==>
      (v == Private <==> vis.GetOr(Public) in {Private, ModuleFunction} || name in {"initialize", "initialize_copy"})
    ensures !singleton ==> v != ModuleFunction
    ensures v == Private || v == vis.GetOr(Public)
  {
    var requested := vis.GetOr(Public);
    if singleton then requested
    else if requested == ModuleFunction || name == "initialize" || name == "initialize_copy" then Private
    else requested
  }

  /** The name `add_writer` defines for attribute `name`. */
  function WriterName(name: string): (w: string)
    ensures |w| == |name| + 1 && w[..|name|] == name && w[|name|] == '='
  {
    name + "="
  }

  /** Distinct attributes get distinct writers, and a writer never shares the
      reader's name, so `add_reader` and `add_writer` never overwrite each other. */
  lemma WriterNameInjective(a: string, b: string)
    ensures WriterName(a) == WriterName(b) ==> a == b
    ensures WriterName(a) != a
  {
  }

  /** The method table after `add_method` stores `exec` under `name` in `mod`
      (whose table was `table`). */
  function StoredTable(mod: Module, name: string, exec: Executable, vis: Option<Vis>, table: map<string, Entry>): map<string, Entry>
  {
    table[name := Entry(Some(exec), EffectiveVisibility(name, vis, IsSingletonClass(mod)))]
  }

  /** The deoptimization `add_method` requests: the previous entry's method, if any. */
  function DeoptCalls(table: map<string, Entry>, name: string): seq<Event>
  {
    if name in table && table[name].body.Some? then [Deoptimize(table[name].body.value)] else []
  }

  /** The observer calls after the store, with `stored` the method table then:
      `singleton_method_added` on the attached object of a singleton class (none
      when the Numeric restriction raises), otherwise `add_ivars` for compiled
      code and accessors, then `method_added`; the hook last. */
  function NotifyCalls(mod: Module, name: string, exec: Executable, stored: map<string, Entry>): seq<Event>
  {
    if IsSingletonClass(mod) then
      if NumericRestricted(mod, stored) then []
      else [SingletonMethodAdded(mod.attached.value, name), HookTriggered(mod, name, exec)]
    else
      (if exec.kind != Primitive then [AddIvars(mod, exec)] else []) +
      [MethodAdded(mod, name), HookTriggered(mod, name, exec)]
  }

  /** Every call `add_method(name, exec, mod, vis)` makes, in order, given the
      method table `table` it found. */
  function AddMethodCalls(mod: Module, name: string, exec: Executable, vis: Option<Vis>, table: map<string, Entry>): seq<Event>
  {
    DeoptCalls(table, name) + [ResetMethodCache(name)] +
    (if vis == Some(ModuleFunction) then [ModuleFunctionCall(mod, name)] else []) +
    NotifyCalls(mod, name, exec, StoredTable(mod, name, exec, vis, table))
  }

  /** The method-cache generation of `name`: how many times its cache was reset. */
  function ResetCount(calls: seq<Event>, name: string): nat
  {
    if calls == [] then 0
    else (if calls[0] == ResetMethodCache(name) then 1 else 0) + ResetCount(calls[1..], name)
  }

  lemma {:induction false} ResetCountAppend(a: seq<Event>, b: seq<Event>, name: string)
    ensures ResetCount(a + b, name) == ResetCount(a, name) + ResetCount(b, name)
  {
    if a == [] {
      assert a + b == b;
    } else {
      assert (a + b)[0] == a[0] && (a + b)[1..] == a[1..] + b;
      ResetCountAppend(a[1..], b, name);
    }
  }

  lemma ResetCountNone(calls: seq<Event>, name: string)
    requires forall i :: 0 <= i < |calls| ==> !calls[i].ResetMethodCache?
    ensures ResetCount(calls, name) == 0
  {
    if calls != [] {
      ResetCountNone(calls[1..], name);
    }
  }

  /** Every `add_method` resets the method cache of exactly its own name, once:
      the generation of `name` goes up by one and no other generation moves. */
  lemma {:induction false} AddMethodResetsCacheOnce(
    trace: seq<Event>, mod: Module, name: string, exec: Executable, vis: Option<Vis>,
    table: map<string, Entry>, other: string)
    ensures ResetCount(trace + AddMethodCalls(mod, name, exec, vis, table), other) ==
            ResetCount(trace, other) + (if other == name then 1 else 0)
  {
    var d := DeoptCalls(table, name);
    var f := if vis == Some(ModuleFunction) then [ModuleFunctionCall(mod, name)] else [];
    var n := NotifyCalls(mod, name, exec, StoredTable(mod, name, exec, vis, table));
    ResetCountNone(d, other);
    ResetCountNone(f, other);
    ResetCountNone(n, other);
    assert ResetCount([ResetMethodCache(name)], other) == if other == name then 1 else 0 by {
      assert [ResetMethodCache(name)][1..] == [];
    }
    ResetCountAppend(d, [ResetMethodCache(name)], other);
    ResetCountAppend(d + [ResetMethodCache(name)], f, other);
    ResetCountAppend(d + [ResetMethodCache(name)] + f, n, other);
    ResetCountAppend(trace, AddMethodCalls(mod, name, exec, vis, table), other);
  }

  /** The previous entry's method is deoptimized, and nothing else is. */
  lemma AddMethodDeoptimizesPrevious(mod: Module, name: string, exec: Executable, vis: Option<Vis>, table: map<string, Entry>, x: Executable)
    ensures Deoptimize(x) in AddMethodCalls(mod, name, exec, vis, table) <==>
            name in table && table[name].body == Some(x)
  {
  }

  /** Unless the Numeric restriction raises on the table after the store, the
      hook is triggered with `(mod, name, exec)` as the last call; exactly one
      of `method_added` and `singleton_method_added` fires, chosen by whether
      `mod` is a singleton class. When the restriction raises, no observer and
      no hook is called. */
  lemma AddMethodNotifies(mod: Module, name: string, exec: Executable, vis: Option<Vis>, table: map<string, Entry>)
    ensures var calls := AddMethodCalls(mod, name, exec, vis, table);
      var restricted := NumericRestricted(mod, StoredTable(mod, name, exec, vis, table));
      (!restricted ==> calls[|calls| - 1] == HookTriggered(mod, name, exec)) &&
      (restricted ==> forall e | e in calls :: !e.HookTriggered? && !e.MethodAdded? && !e.SingletonMethodAdded?) &&
      (IsSingletonClass(mod) && !restricted ==>
         SingletonMethodAdded(mod.attached.value, name) in calls && MethodAdded(mod, name) !in calls) &&
      (!IsSingletonClass(mod) ==>
         MethodAdded(mod, name) in calls && forall e | e in calls :: !e.SingletonMethodAdded?)
  {
  }

  /** The Numeric check runs after the store, so defining a public
      `singleton_method_added` on a singleton class lets that very definition
      through, and a non-public one on a Numeric's singleton class makes it raise. */
  lemma SingletonMethodAddedDecidesRestriction(mod: Module, exec: Executable, vis: Option<Vis>, table: map<string, Entry>)
    requires IsSingletonClass(mod)
    ensures var stored := StoredTable(mod, "singleton_method_added", exec, vis, table);
      (vis.GetOr(Public) == Public ==> !NumericRestricted(mod, stored)) &&
      (mod.attached.value.Instance? && mod.attached.value.numeric && vis.GetOr(Public) != Public ==>
         NumericRestricted(mod, stored))
  {
  }

  /** `module_function` is called exactly when `:module` was requested. */
  lemma AddMethodModuleFunction(mod: Module, name: string, exec: Executable, vis: Option<Vis>, table: map<string, Entry>)
    ensures ModuleFunctionCall(mod, name) in AddMethodCalls(mod, name, exec, vis, table) <==> vis == Some(ModuleFunction)
  {
  }
}
