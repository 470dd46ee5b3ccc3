/** The kernel's mutating operations: finding or creating classes and modules
    under an owner, and defining methods through the single `add_method` path.
    Each method is proved against the pure decisions of modules Namespace and
    Definition. */
module Rubinius {
  import opened Objects
  import opened Namespace
  import opened Definition

  /** The objects `open_*_under` may change: the owner, when it is a Module. */
  function OwnerFrame(owner: Value): set<Module> {
    if owner.ModuleValue? then {owner.m} else {}
  }

  /** The owner's constants table, or None when the owner is not a Module. */
  function TableOf(owner: Value): Option<map<string, Value>>
    reads OwnerFrame(owner)
  {
    if owner.ModuleValue? then Some(owner.m.constants) else None
  }

  function ResultFrame(r: Result<Module>): set<Module> {
    if r.Ok? then {r.value} else {}
  }

  /** The module that receives `def`s in `scope`, when there is a scope. */
  function TargetFrame(scope: Option<Scope>): set<Module> {
    if scope.Some? then {scope.value.definitionTarget} else {}
  }

  /** Whether installing `exec` from `scope` works on a copy: it responds to
      `scope=` and the scope's script is an eval. */
  predicate CopiesOnInstall(exec: Executable, scope: Option<Scope>) {
    exec.scopeSettable && scope.Some? && scope.value.script.Some? && scope.value.script.value.isEval
  }

  /** `m` was just created by `Class.new`/`Module.new` for `name`: empty tables. */
  predicate Blank(m: Module, isClass: bool, superclass: Option<Module>, name: string)
    reads m
  {
    m.isClass == isClass && m.superclass == superclass && m.attached.None? &&
    m.name == Some(name) && m.constants == map[] && m.methods == map[]
  }

  /** The effect of `open_class_under(name, sup, owner)` with result `r`: it
      carries out ClassStep on the owner's table as it was before the call. */
  twostate predicate ClassOpened(owner: Value, name: string, sup: Option<Module>, root: Module, new r: Result<Module>)
    reads OwnerFrame(owner), ResultFrame(r)
  {
    match ClassStep(old(TableOf(owner)), name, sup, root)
    case Raise(e) =>
      r == Err(e) && (owner.ModuleValue? ==> owner.m.constants == old(owner.m.constants))
    case Reuse(c) =>
      owner.ModuleValue? && r == Ok(c) && owner.m.constants == old(owner.m.constants)
    case Create(superclass) =>
      owner.ModuleValue? && r.Ok? && fresh(r.value) && Blank(r.value, true, superclass, name) &&
      owner.m.constants == old(owner.m.constants)[name := ModuleValue(r.value)]
  }

  /** The effect of `open_module_under(name, owner)` with result `r`. */
  twostate predicate ModuleOpened(owner: Value, name: string, new r: Result<Module>)
    reads OwnerFrame(owner), ResultFrame(r)
  {
    match ModuleStep(old(TableOf(owner)), name)
    case Raise(e) =>
      r == Err(e) && (owner.ModuleValue? ==> owner.m.constants == old(owner.m.constants))
    case Reuse(m) =>
      owner.ModuleValue? && r == Ok(m) && owner.m.constants == old(owner.m.constants)
    case Create(_) =>
      owner.ModuleValue? && r.Ok? && fresh(r.value) && Blank(r.value, false, None, name) &&
      owner.m.constants == old(owner.m.constants)[name := ModuleValue(r.value)]
  }

  /** `Class.new sup, name, under`: a fresh class named `name` with superclass
      `sup`, registered under `name` in `under`. */
  method NewClass(sup: Module, name: string, under: Module) returns (c: Module)
    modifies under`constants
    ensures fresh(c) && Blank(c, true, Some(sup), name)
    ensures under.constants == old(under.constants)[name := ModuleValue(c)]
  {
    c := new Module(true, Some(sup), None, Some(name));
    under.constants := under.constants[name := ModuleValue(c)];
  }

  /** `Module.new`, `set_name_if_necessary` and `const_set`: a fresh module
      named `name`, stored under `name` in `under`. */
  method NewModule(name: string, under: Module) returns (m: Module)
    modifies under`constants
    ensures fresh(m) && Blank(m, false, None, name)
    ensures under.constants == old(under.constants)[name := ModuleValue(m)]
  {
    m := new Module(false, None, None, None);
    m.SetNameIfNecessary(name);
    under.constants := under.constants[name := ModuleValue(m)];
  }

  /** Regroups the calls of `add_method` the way the method makes them. */
  lemma AppendCalls(before: seq<Event>, mod: Module, name: string, exec: Executable, vis: Option<Vis>, table: map<string, Entry>)
    ensures before + AddMethodCalls(mod, name, exec, vis, table) ==
      before + DeoptCalls(table, name) +
      ([ResetMethodCache(name)] + (if vis == Some(ModuleFunction) then [ModuleFunctionCall(mod, name)] else [])) +
      NotifyCalls(mod, name, exec, StoredTable(mod, name, exec, vis, table))
  {
  }

  /** The process-wide state of the kernel: `Object`, the singleton classes
      created so far, and the calls made to collaborators, in order. */
  class Runtime {
    const objectClass: Module
    var metaclasses: map<Obj, Module>
    var trace: seq<Event>

    ghost predicate Valid()
      reads this
    {
      objectClass.isClass && objectClass.attached.None? &&
      forall o | o in metaclasses :: metaclasses[o].isClass && metaclasses[o].attached == Some(o)
    }

    constructor (root: Module)
      requires root.isClass && root.attached.None?
      ensures Valid() && objectClass == root && metaclasses == map[] && trace == []
    {
      objectClass := root;
      metaclasses := map[];
      trace := [];
    }

    /** The owner `open_class`/`open_module` use: the scope's module, else `Object`. */
    function LexicalOwner(scope: Option<Scope>): Module {
      if scope.Some? then scope.value.lexicalModule else objectClass
    }

    /** `open_class_under`: find the class `name` under `owner` or create it. */
    method OpenClassUnder(name: string, sup: Option<Module>, owner: Value) returns (r: Result<Module>)
      modifies OwnerFrame(owner)`constants
      ensures ClassOpened(owner, name, sup, objectClass, r)
    {
      if !owner.ModuleValue? {
        return Err(NotAClassOrModule);
      }
      var mod := owner.m;
      var tbl := mod.constants;
      var obj: Value;
      if name !in tbl {
        var c := NewClass(sup.GetOr(objectClass), name, mod);
        return Ok(c);
      }
      obj := tbl[name];
      if obj.Autoload? {
        if obj.loaded.None? {
          // the autoload was aborted: act as if it were not there
          var c := NewClass(sup.GetOr(objectClass), name, mod);
          obj := ModuleValue(c);
        } else {
          obj := obj.loaded.value;
        }
      }
      if obj.ModuleValue? && obj.m.isClass {
        if sup.Some? && obj.m.superclass != sup {
          return Err(SuperclassMismatch(obj.m.superclass, sup.value));
        }
      } else {
        return Err(NotAClass(name));
      }
      return Ok(obj.m);
    }

    /** `open_class`: `open_class_under` the scope's module, or `Object`. */
    method OpenClass(name: string, sup: Option<Module>, scope: Option<Scope>) returns (r: Result<Module>)
      modifies LexicalOwner(scope)`constants
      ensures ClassOpened(ModuleValue(LexicalOwner(scope)), name, sup, objectClass, r)
    {
      var under := LexicalOwner(scope);
      r := OpenClassUnder(name, sup, ModuleValue(under));
    }

    /** `open_module_under`: find the module `name` under `owner` or create it. */
    method OpenModuleUnder(name: string, owner: Value) returns (r: Result<Module>)
      modifies OwnerFrame(owner)`constants
      ensures ModuleOpened(owner, name, r)
    {
      if !owner.ModuleValue? {
        return Err(NotAClassOrModule);
      }
      var mod := owner.m;
      var tbl := mod.constants;
      var obj: Value;
      if name !in tbl {
        var m := NewModule(name, mod);
        return Ok(m);
      }
      obj := tbl[name];
      if obj.Autoload? {
        if obj.loaded.None? {
          // see open_class_under about an aborted autoload
          var m := NewModule(name, mod);
          obj := ModuleValue(m);
        } else {
          obj := obj.loaded.value;
        }
      }
      if (obj.ModuleValue? && obj.m.isClass) || !obj.ModuleValue? {
        return Err(NotAModule(name));
      }
      return Ok(obj.m);
    }

    /** `open_module`: `open_module_under` the scope's module, or `Object`. */
    method OpenModule(name: string, scope: Option<Scope>) returns (r: Result<Module>)
      modifies LexicalOwner(scope)`constants
      ensures ModuleOpened(ModuleValue(LexicalOwner(scope)), name, r)
    {
      var under := LexicalOwner(scope);
      r := OpenModuleUnder(name, ModuleValue(under));
    }

    /** `add_method`: store `exec` under `name` in `mod` with the effective
      visibility, making the calls AddMethodCalls lists. The Numeric
      restriction is checked only after the store, on the table as it is then
      (so the method just stored may be `singleton_method_added` itself), and
      it raises with the table already changed. */
    method AddMethod(name: string, exec: Executable, mod: Module, vis: Option<Vis>) returns (r: Result<Executable>)
      modifies this`trace, mod`methods
      ensures mod.methods == old(mod.methods)[name := Entry(Some(exec), EffectiveVisibility(name, vis, IsSingletonClass(mod)))]
      ensures trace == old(trace) + AddMethodCalls(mod, name, exec, vis, old(mod.methods))
      ensures r == if NumericRestricted(mod, mod.methods) then Err(SingletonOnNumeric) else Ok(exec)
    {
      ghost var table := mod.methods;
      ghost var before := trace;
      var visibility := EffectiveVisibility(name, vis, IsSingletonClass(mod));

      if name in mod.methods && mod.methods[name].body.Some? {
        trace := trace + [Deoptimize(mod.methods[name].body.value)];
      }
      ghost var deopted := trace;
      assert deopted == before + DeoptCalls(table, name);

      mod.methods := mod.methods[name := Entry(Some(exec), visibility)];
      trace := trace + [ResetMethodCache(name)];

      if vis == Some(ModuleFunction) {
        trace := trace + [ModuleFunctionCall(mod, name)];
      }
      ghost var stored := trace;
      assert stored == deopted + ([ResetMethodCache(name)] +
        (if vis == Some(ModuleFunction) then [ModuleFunctionCall(mod, name)] else []));

      if IsSingletonClass(mod) {
        var obj := mod.attached.value;
        if obj.Instance? && obj.numeric && !RespondsToSingletonMethodAdded(obj, mod.methods) {
          AppendCalls(before, mod, name, exec, vis, table);
          return Err(SingletonOnNumeric);
        }
        trace := trace + [SingletonMethodAdded(obj, name)];
      } else {
        if exec.kind != Primitive {
          trace := trace + [AddIvars(mod, exec)];
        }
        trace := trace + [MethodAdded(mod, name)];
      }

      trace := trace + [HookTriggered(mod, name, exec)];
      assert trace == stored + NotifyCalls(mod, name, exec, mod.methods);
      AppendCalls(before, mod, name, exec, vis, table);
      return Ok(exec);
    }

    /** Sets `serial` to 1 and, when `exec` responds to `scope=`, binds it to
      `scope`, on a copy when the scope's script is an eval. */
    method PrepareExecutable(exec: Executable, scope: Option<Scope>) returns (e: Executable)
      modifies exec
      ensures exec.serial == 1
      ensures exec.scope == if exec.scopeSettable && !CopiesOnInstall(exec, scope) then scope else old(exec.scope)
      ensures CopiesOnInstall(exec, scope) ==> fresh(e)
      ensures !CopiesOnInstall(exec, scope) ==> e == exec
      ensures e.kind == exec.kind && e.serial == 1
      ensures exec.scopeSettable ==> e.scope == scope
    {
      exec.serial := 1;
      e := exec;
      if exec.scopeSettable {
        if scope.Some? && scope.value.script.Some? && scope.value.script.value.isEval {
          // a method added inside an eval must not share its body with the eval
          e := exec.Dup();
        }
        e.scope := scope;
      }
    }

    /** `add_defn_method`: a `def` in `scope`. A Numeric's singleton class
      without `singleton_method_added` raises before anything is stored; the
      check inside `add_method` then runs again on the table after the store. */
    method AddDefnMethod(name: string, exec: Executable, scope: Option<Scope>, vis: Option<Vis>) returns (r: Result<Executable>)
      modifies this`trace, exec, TargetFrame(scope)`methods
      ensures exec.serial == 1
      ensures exec.scope == if exec.scopeSettable && !CopiesOnInstall(exec, scope) then scope else old(exec.scope)
      ensures scope.None? ==> r == Err(NilScope) && trace == old(trace)
      ensures scope.Some? && NumericRestricted(scope.value.definitionTarget, old(scope.value.definitionTarget.methods)) ==>
        r == Err(SingletonOnNumeric) && trace == old(trace) &&
        scope.value.definitionTarget.methods == old(scope.value.definitionTarget.methods)
      ensures scope.Some? && !NumericRestricted(scope.value.definitionTarget, old(scope.value.definitionTarget.methods)) ==>
        var mod := scope.value.definitionTarget;
        name in mod.methods && mod.methods[name].body.Some? &&
        var e := mod.methods[name].body.value;
        e.kind == exec.kind && e.serial == 1 &&
        (CopiesOnInstall(exec, scope) ==> fresh(e) && e.scope == scope) &&
        (!CopiesOnInstall(exec, scope) ==> e == exec) &&
        mod.methods == old(mod.methods)[name := Entry(Some(e), EffectiveVisibility(name, vis, IsSingletonClass(mod)))] &&
        trace == old(trace) + AddMethodCalls(mod, name, e, vis, old(mod.methods)) &&
        r == if NumericRestricted(mod, mod.methods) then Err(SingletonOnNumeric) else Ok(e)
    {
      var e := PrepareExecutable(exec, scope);
      if scope.None? {
        return Err(NilScope);
      }
      var mod := scope.value.definitionTarget;
      if IsSingletonClass(mod) {
        var ai := mod.attached.value;
        if ai.Instance? && ai.numeric && !RespondsToSingletonMethodAdded(ai, mod.methods) {
          return Err(SingletonOnNumeric);
        }
      }
      r := AddMethod(name, e, mod, vis);
    }

    /** `Rubinius.object_metaclass`: the singleton class of `recv`, created on
      first use and the same one afterwards. */
    method ObjectMetaclass(recv: Obj) returns (meta: Module)
      requires Valid()
      modifies this`metaclasses
      ensures Valid()
      ensures recv in metaclasses && meta == metaclasses[recv]
      ensures meta.isClass && meta.attached == Some(recv)
      ensures old(recv in metaclasses) ==> metaclasses == old(metaclasses)
      ensures !old(recv in metaclasses) ==>
        fresh(meta) && meta.methods == map[] && metaclasses == old(metaclasses)[recv := meta]
    {
      if recv in metaclasses {
        return metaclasses[recv];
      }
      meta := new Module(true, None, Some(recv), None);
      metaclasses := metaclasses[recv := meta];
    }

    /** `attach_method`: define `name` on the singleton class of `recv`, always
      as public. The Numeric restriction is only the one inside `add_method`,
      so a restricted receiver gets the method stored and the call raises. */
    method AttachMethod(name: string, exec: Executable, scope: Option<Scope>, recv: Obj) returns (r: Result<Executable>)
      requires Valid()
      modifies this, exec, (if recv in metaclasses then {metaclasses[recv]} else {})`methods
      ensures Valid()
      ensures exec.serial == 1
      ensures exec.scope == if exec.scopeSettable && !CopiesOnInstall(exec, scope) then scope else old(exec.scope)
      ensures recv in metaclasses && metaclasses == old(metaclasses)[recv := metaclasses[recv]]
      ensures old(recv in metaclasses) ==> metaclasses[recv] == old(metaclasses[recv])
      ensures !old(recv in metaclasses) ==> fresh(metaclasses[recv])
      ensures var meta := metaclasses[recv];
        var prior := if old(recv in metaclasses) then old(metaclasses[recv].methods) else map[];
        name in meta.methods && meta.methods[name].body.Some? &&
        var e := meta.methods[name].body.value;
        e.kind == exec.kind && e.serial == 1 &&
        (CopiesOnInstall(exec, scope) ==> fresh(e) && e.scope == scope) &&
        (!CopiesOnInstall(exec, scope) ==> e == exec) &&
        meta.methods == prior[name := Entry(Some(e), Public)] &&
        trace == old(trace) + AddMethodCalls(meta, name, e, Some(Public), prior) &&
        r == if recv.Instance? && recv.numeric && !RespondsToSingletonMethodAdded(recv, meta.methods)
             then Err(SingletonOnNumeric) else Ok(e)
    {
      var e := PrepareExecutable(exec, scope);
      var mod := ObjectMetaclass(recv);
      r := AddMethod(name, e, mod, Some(Public));
    }

    /** `add_reader`: define `name` as a reader of the attribute `name`. */
    method AddReader(name: string, mod: Module, vis: Option<Vis>) returns (r: Result<Executable>)
      modifies this`trace, mod`methods
      ensures name in mod.methods && mod.methods[name].body.Some?
      ensures var e := mod.methods[name].body.value;
        fresh(e) && e.kind == ReadIvar(name) &&
        mod.methods == old(mod.methods)[name := Entry(Some(e), EffectiveVisibility(name, vis, IsSingletonClass(mod)))] &&
        trace == old(trace) + AddMethodCalls(mod, name, e, vis, old(mod.methods)) &&
        r == if NumericRestricted(mod, mod.methods) then Err(SingletonOnNumeric) else Ok(e)
    {
      var accessor := new Executable(ReadIvar(name), false, 0, None);
      r := AddMethod(name, accessor, mod, vis);
    }

    /** `add_writer`: define `name=` as a writer of the attribute `name`. */
    method AddWriter(name: string, mod: Module, vis: Option<Vis>) returns (r: Result<Executable>)
      modifies this`trace, mod`methods
      ensures WriterName(name) in mod.methods && mod.methods[WriterName(name)].body.Some?
      ensures var w := WriterName(name); var e := mod.methods[w].body.value;
        fresh(e) && e.kind == WriteIvar(name) &&
        mod.methods == old(mod.methods)[w := Entry(Some(e), EffectiveVisibility(w, vis, IsSingletonClass(mod)))] &&
        trace == old(trace) + AddMethodCalls(mod, w, e, vis, old(mod.methods)) &&
        r == if NumericRestricted(mod, mod.methods) then Err(SingletonOnNumeric) else Ok(e)
    {
      var writerName := WriterName(name);
      var accessor := new Executable(WriteIvar(name), false, 0, None);
      r := AddMethod(writerName, accessor, mod, vis);
    }
  }
}
