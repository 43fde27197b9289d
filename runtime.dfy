/**
 * The object model of the interpreter: functions with closures
 * (com/interpreter/rpdc/RpdcFunction.java), classes with single inheritance
 * (RpdcClass.java) and their instances (RpdcInstance.java).
 *
 * Environment.java, Interpreter.java, Return.java and RuntimeError.java are
 * not part of this model; the environment is a map of bindings with an
 * optional enclosing environment, as far as these three classes use it, and
 * running a function body is abstracted as the way the body completed.
 */
module Runtime {
  import opened Wrappers
  import opened Tokens
  import Syntax

  /** A value of the language: Java's `null`, Boolean, Double, String or one
      of the runtime objects. Numbers keep their digits, as literals do. */
  datatype Value =
    | Nil
    | Bool(b: bool)
    | Num(digits: string)
    | Str(s: string)
    | Instance(obj: RpdcInstance)
    | Function(fn: RpdcFunction)
    | Class(cls: RpdcClass)

  /** How `executeBlock` left a function body: by falling through its end,
      or by a `Return` signal carrying a value. */
  datatype Completion = Normal | Returned(value: Value)

  /** A RuntimeError: the token it is reported at and its message. */
  datatype RuntimeError = RuntimeError(token: Token, message: string)

  datatype Result<T> = Success(value: T) | Failure(error: RuntimeError)

  /** The name under which `bind` stores the receiver. */
  function ThisName(): string { "acesta" }

  /** The name of the method that initializes a new instance. */
  function InitName(): string { "init" }

  /** A scope: its own bindings and the scope it is nested in. The enclosing
      scope exists before the new one is made, so the chain has no cycle;
      `depth` counts the scopes above this one. */
  class Environment {
    const enclosing: Environment?
    var values: map<string, Value>
    ghost const depth: nat

    ghost predicate Valid()
      decreases depth
    {
      if enclosing == null then depth == 0 else enclosing.depth + 1 == depth && enclosing.Valid()
    }

    constructor (enclosing: Environment?)
      requires enclosing != null ==> enclosing.Valid()
      ensures Valid() && this.enclosing == enclosing && values == map[]
    {
      this.enclosing := enclosing;
      values := map[];
      depth := if enclosing == null then 0 else enclosing.depth + 1;
    }

    /** `define(name, value)`: a new binding, or a new value for an old one,
        in this scope only. */
    method Define(name: string, value: Value)
      modifies this
      ensures values == old(values)[name := value]
      ensures Valid() ==> GetAt(0, name) == value
      ensures Valid() ==> forall other :: other != name ==> GetAt(0, other) == old(GetAt(0, other))
    {
      values := values[name := value];
    }

    /** The scope `distance` levels up the chain. */
    function Ancestor(distance: nat): (e: Environment)
      requires Valid() && distance <= depth
      ensures e.Valid() && e.depth == depth - distance
      decreases distance
    {
      if distance == 0 then this else enclosing.Ancestor(distance - 1)
    }

    /** `getAt(distance, name)`: the binding of `name` in that ancestor, and
        Java's `null`, which is Nil here, when it has none. */
    function GetAt(distance: nat, name: string): (v: Value)
      requires Valid() && distance <= depth
      reads Ancestor(distance)
      ensures name in Ancestor(distance).values ==> v == Ancestor(distance).values[name]
      ensures name !in Ancestor(distance).values ==> v == Nil
    {
      var scope := Ancestor(distance);
      if name in scope.values then scope.values[name] else Nil
    }
  }

  /** What `call` defines in the new scope, one parameter after another: the
      i-th parameter's name gets the i-th argument, a later parameter of the
      same name overwriting an earlier one. */
  function Bindings(params: seq<Token>, args: seq<Value>): map<string, Value>
    requires |params| <= |args|
  {
    if params == [] then map[]
    else Bindings(params[..|params| - 1], args)[params[|params| - 1].lexeme := args[|params| - 1]]
  }

  /** The new scope binds exactly the parameter names. */
  lemma {:induction false} BindingsNames(params: seq<Token>, args: seq<Value>)
    requires |params| <= |args|
    ensures forall name :: name in Bindings(params, args) <==> exists i :: 0 <= i < |params| && params[i].lexeme == name
  {
    if params != [] {
      var front := params[..|params| - 1];
      BindingsNames(front, args);
      forall name | exists i :: 0 <= i < |params| && params[i].lexeme == name
        ensures name in Bindings(params, args)
      {
        var i :| 0 <= i < |params| && params[i].lexeme == name;
        if i < |params| - 1 {
          assert front[i].lexeme == name;
        }
      }
      forall name | name in Bindings(params, args)
        ensures exists i :: 0 <= i < |params| && params[i].lexeme == name
      {
        if name != params[|params| - 1].lexeme {
          assert name in Bindings(front, args);
          var i :| 0 <= i < |front| && front[i].lexeme == name;
          assert params[i].lexeme == name;
        }
      }
    }
  }

  /** A parameter that no later parameter shadows is bound to its own
      argument. */
  lemma {:induction false} BindingsAt(params: seq<Token>, args: seq<Value>, i: nat)
    requires |params| <= |args| && i < |params|
    requires forall j :: i < j < |params| ==> params[j].lexeme != params[i].lexeme
    ensures params[i].lexeme in Bindings(params, args)
    ensures Bindings(params, args)[params[i].lexeme] == args[i]
  {
    if i < |params| - 1 {
      var front := params[..|params| - 1];
      assert front[i] == params[i];
      BindingsAt(front, args, i);
    }
  }

  /** A function value: its declaration, the scope it closes over and
      whether it is a class's initializer. */
  class RpdcFunction {
    const declaration: Syntax.FunctionDecl
    const closure: Environment
    const isInitializer: bool

    ghost predicate Valid()
    {
      closure.Valid()
    }

    constructor (declaration: Syntax.FunctionDecl, closure: Environment, isInitializer: bool)
      requires closure.Valid()
      ensures Valid()
      ensures this.declaration == declaration && this.closure == closure && this.isInitializer == isInitializer
    {
      this.isInitializer := isInitializer;
      this.closure := closure;
      this.declaration := declaration;
    }

    /** `arity()`: one argument per declared parameter. */
    function Arity(): (n: nat)
      ensures n == |declaration.params|
    {
      |declaration.params|
    }

    /** `bind(instance)`: the same declaration and flag over a new scope,
        nested in the closure, that binds only the receiver. */
    method Bind(instance: RpdcInstance) returns (f: RpdcFunction)
      requires Valid()
      ensures fresh(f) && fresh(f.closure) && f.Valid() && BoundTo(f, this, instance)
    {
      var environment := new Environment(closure);
      environment.Define(ThisName(), Instance(instance));
      f := new RpdcFunction(declaration, environment, isInitializer);
    }

    /** `call(interpreter, arguments)`, where `body` is how the body ran in
        the scope `frame` that the parameters were defined in. The closure
        itself gains no binding. */
    method Call(arguments: seq<Value>, body: Completion) returns (result: Value, frame: Environment)
      requires Valid() && Arity() <= |arguments|
      ensures fresh(frame) && frame.Valid() && frame.enclosing == closure
      ensures frame.values == Bindings(declaration.params, arguments)
      ensures isInitializer ==> result == closure.GetAt(0, ThisName())
      ensures !isInitializer ==> result == match body case Normal => Nil case Returned(v) => v
    {
      var environment := new Environment(closure);
      var params := declaration.params;
      for i := 0 to |params|
        invariant fresh(environment) && environment.Valid() && environment.enclosing == closure
        invariant environment.values == Bindings(params[..i], arguments)
      {
        environment.Define(params[i].lexeme, arguments[i]);
        assert params[..i + 1][..i] == params[..i];
      }
      assert params[..|params|] == params;
      frame := environment;
      match body {
        case Returned(value) =>
          if isInitializer { return closure.GetAt(0, ThisName()), frame; }
          return value, frame;
        case Normal =>
      }
      if isInitializer { return closure.GetAt(0, ThisName()), frame; }
      return Nil, frame;
    }
  }

  /** `f` is `original.bind(instance)`: the same declaration and flag, and a
      closure nested in the original one that binds `acesta` to `instance`
      and nothing else. */
  ghost predicate BoundTo(f: RpdcFunction, original: RpdcFunction, instance: RpdcInstance)
    reads f.closure
  {
    && f.declaration == original.declaration
    && f.isInitializer == original.isInitializer
    && f.closure.enclosing == original.closure
    && f.closure.values == map[ThisName() := Instance(instance)]
  }

  /** A bound initializer returns its receiver, however its body ended. */
  lemma {:induction false} BoundInitializerReturnsReceiver(f: RpdcFunction, original: RpdcFunction, instance: RpdcInstance)
    requires f.Valid() && BoundTo(f, original, instance) && f.isInitializer
    ensures f.closure.GetAt(0, ThisName()) == Instance(instance)
  {
  }

  /** A class: its name, its superclass (Java's `null` at the root) and its
      method table. The superclass exists before the class is made, so the
      chain has no cycle; `depth` counts the classes above this one. */
  class RpdcClass {
    const name: string
    const superclass: RpdcClass?
    const methods: map<string, RpdcFunction>
    ghost const depth: nat

    ghost predicate Valid()
      decreases depth
    {
      && (forall m :: m in methods.Values ==> m.Valid())
      && if superclass == null then depth == 0 else superclass.depth + 1 == depth && superclass.Valid()
    }

    constructor (name: string, superclass: RpdcClass?, methods: map<string, RpdcFunction>)
      requires superclass != null ==> superclass.Valid()
      requires forall m :: m in methods.Values ==> m.Valid()
      ensures Valid() && this.name == name && this.superclass == superclass && this.methods == methods
    {
      this.superclass := superclass;
      this.name := name;
      this.methods := methods;
      depth := if superclass == null then 0 else superclass.depth + 1;
    }

    /** The class and its ancestors, nearest first. */
    ghost function Chain(): (c: seq<RpdcClass>)
      requires Valid()
      ensures |c| == depth + 1 && c[0] == this
      ensures forall k :: 0 <= k < |c| ==> c[k].Valid()
      decreases depth
    {
      [this] + if superclass == null then [] else superclass.Chain()
    }

    /** `findMethod(name)`: the method of that name in the nearest class of
        the chain that has one, else None. */
    function FindMethod(name: string): (r: Option<RpdcFunction>)
      requires Valid()
      ensures name in methods ==> r == Some(methods[name])
      ensures r.Some? <==> Declares(Chain(), name)
      ensures r.Some? ==> r.value.Valid() && exists k: nat :: FirstWith(Chain(), name, k) && r.value == Chain()[k].methods[name]
      decreases depth
    {
      if name in methods then
        assert FirstWith(Chain(), name, 0);
        Some(methods[name])
      else if superclass != null then
        var r := superclass.FindMethod(name);
        ChainFirst(this, name);
        r
      else
        None
    }

    /** `arity()`: the initializer's arity, and 0 when no class of the chain
        has one. */
    function Arity(): (n: nat)
      requires Valid()
      ensures !Declares(Chain(), InitName()) ==> n == 0
      ensures FindMethod(InitName()).Some? ==> n == FindMethod(InitName()).value.Arity()
    {
      match FindMethod(InitName())
      case None => 0
      case Some(initializer) => initializer.Arity()
    }

    /** `call(interpreter, arguments)`: a new instance of this class, handed
        to the bound initializer when the chain has one. Running the
        initializer gives `frame`, the scope its parameters went into, and
        `returned`, which `call` discards. */
    method Call(arguments: seq<Value>) returns (instance: RpdcInstance, ghost frame: Option<Environment>, ghost returned: Option<Value>)
      requires Valid() && Arity() <= |arguments|
      ensures fresh(instance) && instance.klass == this
      ensures FindMethod(InitName()).None? ==> instance.fields == map[]
      ensures frame.Some? == returned.Some? == FindMethod(InitName()).Some?
      ensures frame.Some? ==> fresh(frame.value) && InitializerFrame(frame.value, FindMethod(InitName()).value, instance, arguments)
      ensures returned.Some? && FindMethod(InitName()).value.isInitializer ==> returned == Some(Instance(instance))
    {
      instance := new RpdcInstance(this);
      frame, returned := None, None;
      var initializer := FindMethod(InitName());
      if initializer.Some? {
        var bound := initializer.value.Bind(instance);
        if bound.isInitializer {
          BoundInitializerReturnsReceiver(bound, initializer.value, instance);
        }
        var result, environment := bound.Call(arguments, Normal);
        frame, returned := Some(environment), Some(result);
      }
    }
  }

  /** Some class of the chain `c` has a method `name`. */
  ghost predicate Declares(c: seq<RpdcClass>, name: string)
  {
    exists k :: 0 <= k < |c| && name in c[k].methods
  }

  /** In the chain `c`, the class at `k` is the first with a method `name`. */
  ghost predicate FirstWith(c: seq<RpdcClass>, name: string, k: nat)
  {
    k < |c| && name in c[k].methods && forall j :: 0 <= j < k ==> name !in c[j].methods
  }

  /** A class without a method `name` passes the lookup on to its superclass:
      its chain has the method exactly when the superclass's does, one place
      further along. */
  lemma {:induction false} ChainFirst(c: RpdcClass, name: string)
    requires c.Valid() && c.superclass != null && name !in c.methods
    ensures Declares(c.Chain(), name) <==> Declares(c.superclass.Chain(), name)
    ensures forall k: nat :: FirstWith(c.superclass.Chain(), name, k) ==> FirstWith(c.Chain(), name, k + 1) && c.Chain()[k + 1] == c.superclass.Chain()[k]
  {
    var up, whole := c.superclass.Chain(), c.Chain();
    assert whole == [c] + up;
    if Declares(whole, name) {
      var k :| 0 <= k < |whole| && name in whole[k].methods;
      assert name in up[k - 1].methods;
    }
    if Declares(up, name) {
      var k :| 0 <= k < |up| && name in up[k].methods;
      assert name in whole[k + 1].methods;
    }
    forall k: nat | FirstWith(up, name, k)
      ensures FirstWith(whole, name, k + 1) && whole[k + 1] == up[k]
    {
    }
  }

  /** The scope a class's bound initializer ran its parameters in: nested in
      the scope that binds the receiver, which is nested in the
      initializer's closure. */
  ghost predicate InitializerFrame(frame: Environment, initializer: RpdcFunction, instance: RpdcInstance, arguments: seq<Value>)
    reads frame, frame.enclosing
  {
    && |initializer.declaration.params| <= |arguments|
    && frame.values == Bindings(initializer.declaration.params, arguments)
    && frame.enclosing != null
    && frame.enclosing.enclosing == initializer.closure
    && frame.enclosing.values == map[ThisName() := Instance(instance)]
  }

  /** What a property name refers to on an instance. */
  datatype Property = Field(value: Value) | Method(fn: RpdcFunction) | Undefined

  /** An object: the class it was made from and its own fields. */
  class RpdcInstance {
    const klass: RpdcClass
    var fields: map<string, Value>

    ghost predicate Valid()
    {
      klass.Valid()
    }

    constructor (klass: RpdcClass)
      requires klass.Valid()
      ensures Valid() && this.klass == klass && fields == map[]
    {
      this.klass := klass;
      fields := map[];
    }

    /** What `name` refers to on this instance now. */
    function Property(name: string): Property
      requires Valid()
      reads this
    {
      PropertyIn(fields, klass, name)
    }

    /** `get(name)`: the field, else the method bound to this instance, else
        a RuntimeError at the name. */
    method Get(name: Token) returns (r: Result<Value>)
      requires Valid()
      ensures Property(name.lexeme).Field? ==> r == Success(Property(name.lexeme).value)
      ensures Property(name.lexeme).Method? ==>
        r.Success? && r.value.Function? && fresh(r.value.fn) && BoundTo(r.value.fn, Property(name.lexeme).fn, this)
      ensures Property(name.lexeme).Undefined? ==>
        r == Failure(RuntimeError(name, "Undefined property '" + name.lexeme + "'."))
    {
      if name.lexeme in fields {
        return Success(fields[name.lexeme]);
      }
      var found := klass.FindMethod(name.lexeme);
      if found.Some? {
        var bound := found.value.Bind(this);
        return Success(Function(bound));
      }
      return Failure(RuntimeError(name, "Undefined property '" + name.lexeme + "'."));
    }

    /** `set(name, value)`: creates or overwrites that one field. */
    method Set(name: Token, value: Value)
      requires Valid()
      modifies this
      ensures fields == old(fields)[name.lexeme := value]
      ensures Property(name.lexeme) == Field(value)
      ensures forall other :: other != name.lexeme ==> Property(other) == old(Property(other))
    {
      fields := fields[name.lexeme := value];
    }
  }

  /** The lookup order of `get` over the field table `fields`: a field
      before any method of the same name, a method of the class chain before
      an error. */
  function PropertyIn(fields: map<string, Value>, klass: RpdcClass, name: string): (p: Property)
    requires klass.Valid()
    ensures p.Field? <==> name in fields
    ensures p.Field? ==> p.value == fields[name]
    ensures p.Method? <==> name !in fields && Declares(klass.Chain(), name)
    ensures p.Method? ==> klass.FindMethod(name) == Some(p.fn)
  {
    if name in fields then Field(fields[name])
    else match klass.FindMethod(name)
      case Some(m) => Method(m)
      case None => Undefined
  }
}
