/** The entities the Rubinius kernel manipulates: modules and classes with their
    constants and method tables, executables, receivers, and the calls the kernel
    makes to its collaborators (deoptimizer, method cache, observers, hook). */
module Objects {

  datatype Option<+T> = None | Some(value: T) {
    /** `x || default`: the value when present, the default otherwise. */
    function GetOr(default: T): T {
      match this
      case Some(v) => v
      case None => default
    }
  }

  /** Method visibilities; `ModuleFunction` is the `:module` marker. */
  datatype Vis = Public | Private | Protected | ModuleFunction

  /** The errors the kernel raises. All but `NilScope` are Ruby `TypeError`s;
      `NilScope` is the `NoMethodError` raised when a nil static scope is asked
      for its method-definition target. */
  datatype Error =
    | NotAClassOrModule                                   // "'…' is not a class/module"
    | NotAClass(name: string)                             // "… is not a class"
    | NotAModule(name: string)                            // "… is not a module"
    | SuperclassMismatch(actual: Option<Module>, requested: Module)
    | SingletonOnNumeric                                  // "Unable to define singleton methods on Numerics"
    | NilScope

  datatype Result<+T> = Ok(value: T) | Err(error: Error)

  /** The script a static scope was compiled from; `isEval` is `script.eval?`. */
  datatype Script = Script(isEval: bool)

  /** A static (lexical) scope: `module` is the lexically enclosing module,
      `for_method_definition` the module that receives `def`s. */
  datatype Scope = Scope(lexicalModule: Module, definitionTarget: Module, script: Option<Script>)

  /** A receiver that can own a singleton class. For ordinary objects, the
      Numeric-ness and whether the receiver's class (not its singleton class)
      gives it a public `singleton_method_added` are recorded as flags instead
      of being probed at run time. */
  datatype Obj =
    | Instance(id: nat, numeric: bool, respondsToSingletonMethodAdded: bool)
    | ModuleObj(m: Module)

  /** What kind of executable a method body is: compiled code, an instance
      variable reader or writer (`AccessVariable`) for attribute `attr`, or any
      other executable (primitives, delegated methods). */
  datatype ExecKind = Compiled | ReadIvar(attr: string) | WriteIvar(attr: string) | Primitive

  /** A constant's value: a class or module, an `Autoload` whose `call(true)`
      yields `loaded` (None for nil), or any other object. */
  datatype Value = ModuleValue(m: Module) | Autoload(loaded: Option<Value>) | Plain

  /** A method table entry; `body` is nil for entries that only record a visibility. */
  datatype Entry = Entry(body: Option<Executable>, visibility: Vis)

  /** A call the kernel makes to a collaborator, in the order it makes them. */
  datatype Event =
    | Deoptimize(body: Executable)                      // Rubinius.deoptimize_inliners
    | ResetMethodCache(name: string)                      // Rubinius::VM.reset_method_cache
    | ModuleFunctionCall(owner: Module, name: string)     // mod.module_function
    | AddIvars(owner: Module, exec: Executable)           // mod.add_ivars
    | SingletonMethodAdded(receiver: Obj, name: string)   // obj.singleton_method_added
    | MethodAdded(owner: Module, name: string)            // mod.method_added
    | HookTriggered(owner: Module, name: string, exec: Executable)  // add_method_hook.trigger!

  /** A Ruby Module, or a Class when `isClass`. A singleton class (metaclass)
      is a class whose `attached` object (`__metaclass_object__`) is set. */
  class Module {
    const isClass: bool
    const superclass: Option<Module>
    const attached: Option<Obj>
    var name: Option<string>
    var constants: map<string, Value>
    var methods: map<string, Entry>

    constructor (isClass: bool, superclass: Option<Module>, attached: Option<Obj>, name: Option<string>)
      ensures this.isClass == isClass && this.superclass == superclass && this.attached == attached
      ensures this.name == name && constants == map[] && methods == map[]
    {
      this.isClass := isClass;
      this.superclass := superclass;
      this.attached := attached;
      this.name := name;
      constants := map[];
      methods := map[];
    }

    /** Names the module unless it already has a name (first lexical site wins). */
    method SetNameIfNecessary(n: string)
      modifies this`name
      ensures name == if old(name).None? then Some(n) else old(name)
    {
      if name.None? {
        name := Some(n);
      }
    }
  }

  /** A method body with its mutable `serial` and bound `scope`;
      `scopeSettable` records whether it responds to `scope=`. */
  class Executable {
    const kind: ExecKind
    const scopeSettable: bool
    var serial: int
    var scope: Option<Scope>

    constructor (kind: ExecKind, scopeSettable: bool, serial: int, scope: Option<Scope>)
      ensures this.kind == kind && this.scopeSettable == scopeSettable
      ensures this.serial == serial && this.scope == scope
    {
      this.kind := kind;
      this.scopeSettable := scopeSettable;
      this.serial := serial;
      this.scope := scope;
    }

    /** `dup`: a fresh executable with the same fields. */
    method Dup() returns (copy: Executable)
      ensures fresh(copy)
      ensures copy.kind == kind && copy.scopeSettable == scopeSettable
      ensures copy.serial == serial && copy.scope == scope
    {
      copy := new Executable(kind, scopeSettable, serial, scope);
    }
  }
}
