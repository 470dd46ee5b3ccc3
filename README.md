# Rubinius metaobject kernel, modelled in Dafny

This project models the core of the Rubinius bootstrap kernel (`kernel/delta/rubinius.rb`):

- **Namespace resolution.** `open_class_under`, `open_module_under` and their wrappers `open_class` and `open_module` find or create a class or module under an owner. They check that the owner is a Module and that a stored constant has the right kind. For classes they also check the superclass. An `Autoload` constant whose call yields nil is treated as absent.
- **Method definition.** `add_method` is the single path that changes a method table. It computes the effective visibility, deoptimizes the method it replaces, stores the new entry and resets the method cache for the name. It then calls `module_function` when `:module` was asked for, notifies `singleton_method_added` or `method_added`, and triggers the global add-method hook. `add_defn_method` and `attach_method` first prepare the executable: they set its serial to 1, copy it when the scope's script is an eval, and bind its scope. `add_defn_method` also refuses singleton methods on Numerics before anything is stored.
- **Accessors.** `add_reader` and `add_writer` define `name` and `name=` as instance-variable accessors through `add_method`.

Layout:

- `objects.dfy` (module `Objects`) holds the entities. `Module` and `Executable` are classes whose fields the kernel updates in place. Values, receivers, scopes, table entries, errors and collaborator calls are datatypes.
- `namespace.dfy` (module `Namespace`) holds the pure decision of `open_class_under` and `open_module_under` (`ClassStep`, `ModuleStep`) and the lemmas about it.
- `definition.dfy` (module `Definition`) holds the visibility rule, the writer-name derivation and the ordered list of collaborator calls `add_method` makes (`AddMethodCalls`). The method-cache generation of a name is `ResetCount`, the number of cache resets for it.
- `kernel.dfy` (module `Rubinius`) holds the class `Runtime`. Its methods carry out the operations step by step as the source does, and each is proved against the functions above.

Collaborators whose code is not part of this model are recorded as calls in `Runtime.trace`, in the order the kernel makes them. These are `deoptimize_inliners`, `VM.reset_method_cache`, `module_function`, `add_ivars`, the two observers and `Hook#trigger!`. Other collaborators are inputs:

- `Autoload#call` is the `loaded` field of an `Autoload` value.
- `Type.obj_kind_of?(obj, Numeric)` and the answer of `respond_to?(:singleton_method_added)` from the receiver's own class are flags of the receiver. An entry for `singleton_method_added` in its singleton class decides instead (`Definition.RespondsToSingletonMethodAdded`).
- `script.eval?` is a flag of the scope's script.
- `respond_to?(:scope=)` is a flag of the executable.

`Rubinius.object_metaclass` is modelled by the map `Runtime.metaclasses`. It creates a singleton class on first use and returns the same one afterwards.

Assumption: `Class.new sup, name, mod` (lines 20 and 31) registers the new class under `name` in `mod` and names it. `NewClass` states this. The module branch does the same with explicit calls at lines 65-67 and 75-77.

Points of the code that the model follows closely:

- `add_defn_method` checks the Numeric restriction before the store (lines 114-123). `add_method` checks it only after the store (lines 156-163). So `attach_method` on a restricted Numeric stores the method, resets the cache, and then raises. `AddMethod` and `AttachMethod` state this.
- The check after the store asks `respond_to?(:singleton_method_added)` of a receiver whose singleton class already holds the new method. Defining a public `singleton_method_added` on a Numeric's singleton class through `add_method` therefore passes that check. `Definition.SingletonMethodAddedDecidesRestriction` states this.
- Only `add_defn_method` and `attach_method` set the serial to 1 (lines 99 and 188). `add_reader` and `add_writer` do not touch the serial.
- `add_method` calls `module_function` whenever `:module` was asked for, even on a singleton class where the stored visibility stays `:module`.

## Model

| member | source | states |
|---|---|---|
| Namespace.ClassStep | kernel/delta/rubinius.rb:11-45 | A non-Module owner raises. A fresh class gets superclass `sup`, or `Object` when `sup` is nil, and is created only when the name is absent or its autoload yields nil. A reused constant is a Class whose superclass equals any non-nil `sup`. A raise on a Module owner happens only when the name is present and is not an `Autoload` that yields nil. |
| Namespace.ModuleStep | kernel/delta/rubinius.rb:57-86 | A non-Module owner raises. A module is created only when the name is absent or its autoload yields nil. A reused constant is a Module that is not a Class. |
| Namespace.AutoloadNilActsAbsent | kernel/delta/rubinius.rb:23-32 | For both classes and modules, a table whose entry is an autoload yielding nil gives the same outcome as the table without that entry. |
| Namespace.ClassWrongKindRejected | kernel/delta/rubinius.rb:35-41 | `open_class_under` raises "is not a class" exactly when the resolved constant is not a Class. |
| Namespace.ModuleWrongKindRejected | kernel/delta/rubinius.rb:81-83 | `open_module_under` raises "is not a module" exactly when the resolved constant is a Class or not a Module. |
| Namespace.ReopenClassSuperclass | kernel/delta/rubinius.rb:35-44 | A stored class is returned when `sup` is nil or equals its superclass. Any other `sup` raises a superclass mismatch that names both classes. |
| Namespace.SecondOpenClassReturnsSame | kernel/delta/rubinius.rb:16-44 | After a call that returned or created class `c`, a second call with nil or the same `sup` returns `c`. |
| Namespace.SecondOpenModuleReturnsSame | kernel/delta/rubinius.rb:62-85 | After a call that returned or created module `m`, a second call with the same name returns `m`. |
| Rubinius.NewClass | kernel/delta/rubinius.rb:20 | `Class.new sup, name, mod` yields a fresh, empty, named class with superclass `sup` and registers it under `name` in `mod`. |
| Rubinius.NewModule | kernel/delta/rubinius.rb:65-67 | `Module.new` with `set_name_if_necessary` and `const_set` yields a fresh, empty module named `name` and stores it under `name` in the owner. |
| Objects.Module.SetNameIfNecessary | kernel/delta/rubinius.rb:66 | Names an unnamed module and keeps an existing name. |
| Rubinius.Runtime.OpenClassUnder | kernel/delta/rubinius.rb:11-45 | Carries out `ClassStep` on the owner's table as it was before the call. Every raise leaves the constants table unchanged. A reuse returns the stored class. A creation returns a fresh class and stores it under `name`. Nothing but the owner's constants table changes. |
| Rubinius.Runtime.OpenClass | kernel/delta/rubinius.rb:47-55 | The same as `OpenClassUnder` with the scope's module as owner, or `Object` when there is no scope. |
| Rubinius.Runtime.OpenModuleUnder | kernel/delta/rubinius.rb:57-86 | Carries out `ModuleStep` on the owner's table as it was before the call, with the same guarantees as `OpenClassUnder`. A created module is named and stored with `const_set`. Nothing but the owner's constants table changes. |
| Rubinius.Runtime.OpenModule | kernel/delta/rubinius.rb:88-96 | The same as `OpenModuleUnder` with the scope's module as owner, or `Object` when there is no scope. |
| Definition.EffectiveVisibility | kernel/delta/rubinius.rb:129-139 | Nil means `:public`. A singleton class keeps the requested visibility. Elsewhere the result is private exactly when private or `:module` was asked for, or the name is `initialize` or `initialize_copy`; it is never `:module`. Any change is always towards private. |
| Definition.AddMethodDeoptimizesPrevious | kernel/delta/rubinius.rb:141-143 | An executable is deoptimized exactly when it is the method of the entry that `name` had before. |
| Definition.AddMethodResetsCacheOnce | kernel/delta/rubinius.rb:146 | Each `add_method` raises the method-cache generation of its own name by exactly one and leaves every other name's generation unchanged. |
| Definition.AddMethodModuleFunction | kernel/delta/rubinius.rb:148 | `module_function` is called exactly when `:module` was asked for. |
| Definition.AddMethodNotifies | kernel/delta/rubinius.rb:156-180 | Unless the Numeric restriction raises, the last call is the hook with `(mod, name, exec)`. `singleton_method_added` fires on a singleton class and `method_added` fires elsewhere, never both. On the Numeric raise, no observer and no hook runs. |
| Definition.SingletonMethodAddedDecidesRestriction | kernel/delta/rubinius.rb:145-163 | On a singleton class, storing a public `singleton_method_added` lifts the Numeric restriction for that very call, and storing a non-public one on a Numeric's singleton class makes the call raise. |
| Rubinius.Runtime.AddMethod | kernel/delta/rubinius.rb:128-183 | Stores `exec` under `name` with the effective visibility and leaves every other name untouched. Appends exactly the calls `AddMethodCalls` lists. Returns `exec`, or raises after the store when the singleton class of a Numeric, with its table as it is after the store, does not respond to `singleton_method_added`. |
| Objects.Executable.Dup | kernel/delta/rubinius.rb:106 | `dup` yields a fresh executable with the same kind, serial and scope. |
| Rubinius.Runtime.PrepareExecutable | kernel/delta/rubinius.rb:98-110 | Sets the serial to 1. An executable that responds to `scope=` is bound to the scope, on a fresh copy when the script is an eval. In that case the original keeps its old scope. |
| Rubinius.Runtime.AddDefnMethod | kernel/delta/rubinius.rb:98-126 | A nil scope raises. A Numeric singleton target that does not respond to `singleton_method_added` raises before the method table or the trace changes. Otherwise the prepared executable is defined on the scope's definition target exactly as by `AddMethod`, with the same check again on the table after the store. Only the methods table of the target, the trace and `exec` change. |
| Rubinius.Runtime.ObjectMetaclass | kernel/delta/rubinius.rb:201 | Returns the receiver's singleton class: a class attached to the receiver. It is created fresh and empty on first use and is the same object on every later use. |
| Rubinius.Runtime.AttachMethod | kernel/delta/rubinius.rb:187-204 | Defines the prepared executable on the receiver's singleton class with visibility public, never coerced to private. The method is stored even when the restricted-Numeric check then raises, and that check sees the table after the store. Only the singleton class's methods table, the metaclass map, the trace and `exec` change. |
| Definition.WriterName | kernel/delta/rubinius.rb:214 | The writer name is the attribute name followed by exactly one `=`. |
| Definition.WriterNameInjective | kernel/delta/rubinius.rb:207-216 | Distinct attributes have distinct writer names, and a writer name never equals its reader name. So defining the reader and the writer never overwrites either one. |
| Rubinius.Runtime.AddReader | kernel/delta/rubinius.rb:207-210 | Defines `name` as a fresh reader of attribute `name` through `add_method`, with the caller's visibility. |
| Rubinius.Runtime.AddWriter | kernel/delta/rubinius.rb:212-216 | Defines `name=` as a fresh writer of attribute `name` through `add_method`, with the caller's visibility. |

## Left out

- `Terminal`, `AtExit`, signal dispatch, the JIT entry points, `version` and `RUBY_DESCRIPTION`: environment and I/O plumbing.
- `set_data` and `compile_file`: file I/O and a call into the compiler.
- `pack_to_*`: thin wrappers over `Type.coerce_to`; `pack_to_float` is floating point.
- `unrecognized_defined` and `jump_error`: unconditional raises with no logic.
- The internals of `Hook#trigger!`, `module_function`, `add_ivars`, `deoptimize_inliners`, `VM.reset_method_cache`, `method_added` and `singleton_method_added`. They are recorded as calls, and an exception raised inside one of them is not modelled.
- `Rubinius.privately`: only changes how the observer call is dispatched.
- `Type.coerce_to_symbol`: names are strings, and normalizing one is the identity. A name that cannot be made a symbol, which raises there, is not modelled.
- `Class.new`'s own checks, such as a superclass that is not a Class, and its `inherited` callback. Its visible behaviour is taken as the assumption stated above.
- `set_name_if_necessary` computes a name qualified by the owner. The model records only the constant's own name.
- Rubinius.Runtime.ObjectMetaclass: the singleton class is given no superclass, because how `object_metaclass` links it into the hierarchy is not part of this model.
- Rubinius.Runtime.AddReader and Rubinius.Runtime.AddWriter: the accessor executables are created with serial 0 and no scope. `AccessVariable.get_ivar` and `set_ivar` are not part of this model, and the contracts say nothing about those fields.
- `respond_to?` on an object is reduced to its singleton class's entry for `singleton_method_added` (public with a body) or, without one, a flag for the receiver's class. Method lookup through the class hierarchy is not part of this model.
- An `Autoload#call` that loads the constant also changes the constants table by itself. That happens inside `Autoload` and is not modelled; the table is unchanged by this code in that case.
- Running an accessor, such as reading back a written instance variable, is outside this kernel.
