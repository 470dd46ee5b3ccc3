/** What `open_class_under` and `open_module_under` decide for a given owner
    constants table, as a pure function: reuse an existing class or module,
    create a fresh one, or raise. The methods in module Rubinius carry out the
    decision and are proved against these functions. */
module Namespace {
  import opened Objects

  datatype Step = Reuse(m: Module) | Create(superclass: Option<Module>) | Raise(err: Error)

  /** What a constant stands for once looked at: an `Autoload` is called and
      replaced by its result (None when the autoload yields nil). */
  function Resolved(v: Value): (r: Option<Value>)
    ensures !v.Autoload? ==> r == Some(v)
  {
    if v.Autoload? then v.loaded else Some(v)
  }

  /** The decision of `open_class_under(name, sup, owner)`; `table` is None when
      the owner is not a Module, and `root` is `Object`. */
  function ClassStep(table: Option<map<string, Value>>, name: string, sup: Option<Module>, root: Module): (s: Step)
    ensures table.None? ==> s == Raise(NotAClassOrModule)
    ensures s.Create? ==>
      table.Some? && s.superclass == Some(sup.GetOr(root)) &&
      (name !in table.value || Resolved(table.value[name]).None?)
    ensures s.Reuse? ==>
      table.Some? && name in table.value && Resolved(table.value[name]) == Some(ModuleValue(s.m)) &&
      s.m.isClass && (sup.Some? ==> s.m.superclass == sup)
    ensures s.Raise? && table.Some? ==> name in table.value && Resolved(table.value[name]).Some?
  {
    if table.None? then Raise(NotAClassOrModule)
    else if name !in table.value then Create(Some(sup.GetOr(root)))
    else
      match Resolved(table.value[name])
      case None => Create(Some(sup.GetOr(root)))
      case Some(obj) =>
        if obj.ModuleValue? && obj.m.isClass then
          if sup.Some? && obj.m.superclass != sup then Raise(SuperclassMismatch(obj.m.superclass, sup.value))
          else Reuse(obj.m)
        else Raise(NotAClass(name))
  }

  /** The decision of `open_module_under(name, owner)`. */
  function ModuleStep(table: Option<map<string, Value>>, name: string): (s: Step)
    ensures table.None? ==> s == Raise(NotAClassOrModule)
    ensures s.Create? ==>
      table.Some? && s.superclass.None? &&
      (name !in table.value || Resolved(table.value[name]).None?)
    ensures s.Reuse? ==>
      table.Some? && name in table.value && Resolved(table.value[name]) == Some(ModuleValue(s.m)) &&
      !s.m.isClass
    ensures s.Raise? && table.Some? ==> name in table.value && Resolved(table.value[name]).Some?
  {
    if table.None? then Raise(NotAClassOrModule)
    else if name !in table.value then Create(None)
    else
      match Resolved(table.value[name])
      case None => Create(None)
      case Some(obj) =>
        if obj.ModuleValue? && !obj.m.isClass then Reuse(obj.m)
        else Raise(NotAModule(name))
  }

  /** An `Autoload` whose call yields nil is treated as if the constant were absent. */
  lemma AutoloadNilActsAbsent(table: map<string, Value>, name: string, sup: Option<Module>, root: Module)
    ensures ClassStep(Some(table[name := Autoload(None)]), name, sup, root) == ClassStep(Some(table - {name}), name, sup, root)
    ensures ModuleStep(Some(table[name := Autoload(None)]), name) == ModuleStep(Some(table - {name}), name)
  {
  }

  /** `open_class_under` raises "is not a class" exactly when the stored
      constant (after any autoload) is something other than a Class. */
  lemma ClassWrongKindRejected(table: map<string, Value>, name: string, sup: Option<Module>, root: Module)
    requires name in table && Resolved(table[name]).Some?
    ensures var v := Resolved(table[name]).value;
      !(v.ModuleValue? && v.m.isClass) <==> ClassStep(Some(table), name, sup, root) == Raise(NotAClass(name))
  {
  }

  /** `open_module_under` raises "is not a module" exactly when the stored
      constant (after any autoload) is a Class or not a Module at all. */
  lemma ModuleWrongKindRejected(table: map<string, Value>, name: string)
    requires name in table && Resolved(table[name]).Some?
    ensures var v := Resolved(table[name]).value;
      !(v.ModuleValue? && !v.m.isClass) <==> ModuleStep(Some(table), name) == Raise(NotAModule(name))
  {
  }

  /** Reopening a stored class: nil `sup` returns it; a `sup` other than its
      superclass raises "Superclass mismatch". */
  lemma ReopenClassSuperclass(table: map<string, Value>, name: string, c: Module, sup: Module, root: Module)
    requires name in table && table[name] == ModuleValue(c) && c.isClass
    ensures ClassStep(Some(table), name, None, root) == Reuse(c)
    ensures ClassStep(Some(table), name, Some(sup), root) ==
            if c.superclass == Some(sup) then Reuse(c) else Raise(SuperclassMismatch(c.superclass, sup))
  {
  }

  /** The table after `open_class_under` has carried out `step` with result `c`. */
  function AfterOpen(table: map<string, Value>, name: string, step: Step, c: Module): map<string, Value>
  {
    if step.Create? then table[name := ModuleValue(c)] else table
  }

  /** Opening a class a second time, with nil or with the same `sup`, returns
      the class the first call returned (the created one, if it created one). */
  lemma SecondOpenClassReturnsSame(table: map<string, Value>, name: string, sup: Option<Module>, root: Module, c: Module)
    requires var s := ClassStep(Some(table), name, sup, root);
      s == Reuse(c) || (s.Create? && c.isClass && c.superclass == s.superclass)
    ensures var after := AfterOpen(table, name, ClassStep(Some(table), name, sup, root), c);
      ClassStep(Some(after), name, None, root) == Reuse(c) &&
      ClassStep(Some(after), name, sup, root) == Reuse(c)
  {
  }

  /** Opening a module a second time returns the module the first call returned. */
  lemma SecondOpenModuleReturnsSame(table: map<string, Value>, name: string, m: Module)
    requires var s := ModuleStep(Some(table), name);
      s == Reuse(m) || (s.Create? && !m.isClass)
    ensures ModuleStep(Some(AfterOpen(table, name, ModuleStep(Some(table), name), m)), name) == Reuse(m)
  {
  }
}
