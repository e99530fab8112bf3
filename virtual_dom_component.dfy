/**
 * A model of `virtual-dom-component`: a base constructor for stateful UI
 * components (`VirtualComponent`) and its `extend` operation, which derives a
 * new component type whose prototype delegates to the parent's prototype.
 *
 * JavaScript values are reduced to the few kinds the library distinguishes
 * (truthy or not, array or not, function); a prototype chain is an explicit
 * chain of member maps; calling user code (`initialize`, a custom
 * `constructor`) is a caller-supplied `Callback`; the external single-event
 * emitter factory is a counter handing out fresh emitter ids.
 */
module VirtualComponent {

  datatype Option<T> = None | Some(value: T)

  datatype Result<T, E> = Success(value: T) | Failure(error: E)

  /** The JavaScript values the library looks at. */
  datatype Value =
    | Undefined                          // a missing property
    | Falsy                              // null, false, 0, NaN or ""
    | Prim(tag: nat)                     // any truthy number, string or boolean
    | Func(id: nat)                      // a caller-supplied function (render, initialize, a method)
    | Names(names: seq<string>)          // an array, here of event names
    | Obj(fields: map<string, Value>)    // a plain object, such as an events map
    | Emitter(id: nat)                   // an emitter made by the single-event factory
    | Ctor(t: ComponentType)             // the constructor function of a component type
    | ExtendFn                           // the library's own `extend` function

  /** JavaScript truthiness: only `undefined` and the falsy primitives are false. */
  predicate Truthy(v: Value) {
    !v.Undefined? && !v.Falsy?
  }

  /**
   * A prototype object: its own members and the prototype it delegates to.
   * `ObjectPrototype` ends every chain; its built-in members are not modelled.
   */
  datatype Proto =
    | ObjectPrototype
    | Layer(own: map<string, Value>, parent: Proto)

  /** Property lookup along a prototype chain: the nearest own member wins. */
  function Lookup(p: Proto, key: string): Value {
    match p
    case ObjectPrototype => Undefined
    case Layer(own, parent) => if key in own then own[key] else Lookup(parent, key)
  }

  /** Lookup on an object with own properties `fields` and prototype `proto`. */
  function Get(proto: Proto, fields: map<string, Value>, key: string): Value {
    if key in fields then fields[key] else Lookup(proto, key)
  }

  /**
   * Running a caller-supplied function `fn` with receiver fields and arguments
   * yields the receiver's new own fields. This stands for `initialize` and for a
   * custom `constructor`, whose bodies belong to the library's users.
   */
  type Callback = (Value, map<string, Value>, seq<Value>) -> map<string, Value>

  // ---------------------------------------------------------------------------
  // Events: the emitter factory and the array-to-map conversion
  // ---------------------------------------------------------------------------

  /** The single-event emitter factory; every call hands out a fresh emitter. */
  class EmitterSource {
    /** Number of emitters made so far; the ids below it are taken. */
    var issued: nat

    constructor ()
      ensures issued == 0
    {
      issued := 0;
    }

    /** `Event()`: a new emitter, distinct from every one made before. */
    method Event() returns (e: Value)
      modifies this
      ensures e == Emitter(old(issued)) && issued == old(issued) + 1
    {
      e := Emitter(issued);
      issued := issued + 1;
    }
  }

  /** The position of the last occurrence of `n` in `names`. */
  function LastIndex(names: seq<string>, n: string): (i: nat)
    requires n in names
    ensures i < |names| && names[i] == n
    ensures forall j :: i < j < |names| ==> names[j] != n
  {
    var last := |names| - 1;
    if names[last] == n then last
    else
      assert names == names[..last] + [names[last]];
      LastIndex(names[..last], n)
  }

  /**
   * The events map built by the loop over an array of event names when the
   * factory has already issued `base` emitters: the name at position i is
   * bound to the i-th new emitter, a later occurrence overwriting an earlier one.
   */
  function EventsFrom(names: seq<string>, base: nat): (events: map<string, Value>)
    ensures events.Keys == set n | n in names
  {
    if names == [] then map[]
    else
      var last := |names| - 1;
      assert names == names[..last] + [names[last]];
      EventsFrom(names[..last], base)[names[last] := Emitter(base + last)]
  }

  /** The indexed loop of `VirtualComponent`: each event name gets a new emitter. */
  method BuildEvents(names: seq<string>, source: EmitterSource) returns (events: map<string, Value>)
    modifies source
    ensures events == EventsFrom(names, old(source.issued))
    ensures source.issued == old(source.issued) + |names|
  {
    events := map[];
    for i := 0 to |names|
      invariant events == EventsFrom(names[..i], old(source.issued))
      invariant source.issued == old(source.issued) + i
    {
      var e := source.Event();
      assert names[..i + 1][..i] == names[..i];
      events := events[names[i] := e];
    }
    assert names[..|names|] == names;
  }

  // ---------------------------------------------------------------------------
  // Construction of an instance
  // ---------------------------------------------------------------------------

  /** The outcome of construction: the instance's own fields and the emitter count. */
  datatype Construction = Construction(fields: map<string, Value>, issued: nat)

  /** The receiver's own fields once `initialize`, when there is a truthy one, has run. */
  function AfterInitialize(proto: Proto, fields: map<string, Value>, args: seq<Value>,
                           run: Callback): map<string, Value> {
    var init := Get(proto, fields, "initialize");
    if Truthy(init) then run(init, fields, args) else fields
  }

  /**
   * What the body of `VirtualComponent` does to a receiver with prototype
   * `proto` and own fields `fields`, when the factory has issued `issued` emitters.
   */
  function Constructed(proto: Proto, fields: map<string, Value>, args: seq<Value>,
                       run: Callback, issued: nat): (c: Construction)
    ensures "state" in c.fields && c.fields["state"] == Obj(map[])
    ensures "events" in c.fields && Truthy(c.fields["events"])
    ensures issued <= c.issued
  {
    var afterInit := AfterInitialize(proto, fields, args, run);
    var declared := Get(proto, afterInit, "events");
    var events := if declared.Names? then Obj(EventsFrom(declared.names, issued))
                  else if Truthy(declared) then declared
                  else Obj(map[]);
    var next := if declared.Names? then issued + |declared.names| else issued;
    Construction(afterInit["events" := events]["state" := Obj(map[])], next)
  }

  /** A component instance: its own properties and its prototype. */
  class Instance {
    var fields: map<string, Value>
    const proto: Proto

    /** `Object.create(proto)`: an object with no own properties. */
    constructor (proto: Proto)
      ensures this.proto == proto && fields == map[]
    {
      this.proto := proto;
      fields := map[];
    }

    /** `this[key]`: an own property, or else the prototype chain's. */
    function Member(key: string): Value
      reads this
    {
      Get(proto, fields, key)
    }

    /** The body of `VirtualComponent`, run on this instance as receiver. */
    method Construct(args: seq<Value>, run: Callback, source: EmitterSource)
      modifies this, source
      ensures Construction(fields, source.issued)
           == Constructed(proto, old(fields), args, run, old(source.issued))
    {
      ghost var before := fields;
      var init := Member("initialize");
      if Truthy(init) {
        fields := run(init, fields, args);
      }
      assert fields == AfterInitialize(proto, before, args, run);
      var declared := Member("events");
      if declared.Names? {
        var events := BuildEvents(declared.names, source);
        fields := fields["events" := Obj(events)];
      } else {
        fields := fields["events" := if Truthy(declared) then declared else Obj(map[])];
      }
      // `initialize` cannot leave anything in `state`
      fields := fields["state" := Obj(map[])];
    }
  }

  // ---------------------------------------------------------------------------
  // Component types and `extend`
  // ---------------------------------------------------------------------------

  /** What calling a component type's constructor function does. */
  datatype Body =
    | BaseBody                            // `VirtualComponent` itself
    | DefaultBody(parent: ComponentType)  // the constructor `extend` synthesises
    | CustomBody(fn: Value)               // a `constructor` the declarations supply

  datatype ExtendError =
    | MissingRender   // "VirtualComponents require a render function"
    | ReservedState   // ".state is reserved for component state"
    | ConstructorTypeError  // the TypeError a primitive `constructor` leads to

  /**
   * A primitive value: a property written onto it is lost (or throws, for
   * `null` and `undefined`) and its `prototype` reads as `undefined`.
   */
  predicate Primitive(v: Value) {
    v.Undefined? || v.Falsy? || v.Prim?
  }

  /** `prototype || {}`: an omitted or falsy declaration object stands for `{}`. */
  function Declarations(decls: Option<map<string, Value>>): map<string, Value> {
    match decls
    case Some(d) => d
    case None => map[]
  }

  /** `d[key]` on a plain declaration object: its own property or `undefined`. */
  function Field(d: map<string, Value>, key: string): Value {
    if key in d then d[key] else Undefined
  }

  /** The render check of `extend`: the parent's prototype chain or the declarations supply a truthy `render`. */
  predicate RenderSupplied(parentProto: Proto, d: map<string, Value>) {
    Truthy(Lookup(parentProto, "render")) || Truthy(Field(d, "render"))
  }

  /** A component type: a constructor function object with `prototype`, `extend` and `__super__`. */
  class ComponentType {
    const body: Body
    /** Length of the chain of synthesised constructors below this one; bounds the delegation. */
    const depth: nat
    var proto: Proto                 // F.prototype
    var extendFn: Value              // F.extend
    var superProto: Option<Proto>    // F.__super__

    /** Delegation from synthesised constructors to their parents ends. */
    ghost predicate Ranked()
      decreases depth
    {
      match body
      case DefaultBody(p) => p.depth < depth && p.Ranked()
      case _ => true
    }

    /** Delegation ends in `VirtualComponent` rather than in a custom constructor. */
    ghost predicate ReachesBase()
      requires Ranked()
      decreases depth
    {
      match body
      case BaseBody => true
      case DefaultBody(p) => p.ReachesBase()
      case CustomBody(_) => false
    }

    /** `VirtualComponent` as exported: its default prototype and the `extend` function. */
    constructor Base()
      ensures body == BaseBody && Ranked() && ReachesBase()
      ensures proto == Layer(map["constructor" := Ctor(this)], ObjectPrototype)
      ensures extendFn == ExtendFn && superProto == None
    {
      body := BaseBody;
      depth := 0;
      extendFn := ExtendFn;
      superProto := None;
      new;
      proto := Layer(map["constructor" := Ctor(this)], ObjectPrototype);
    }

    /** A newly made function object, with its own default prototype and nothing else. */
    constructor Function(body: Body, depth: nat)
      ensures this.body == body && this.depth == depth
      ensures proto == Layer(map["constructor" := Ctor(this)], ObjectPrototype)
      ensures extendFn == Undefined && superProto == None
    {
      this.body := body;
      this.depth := depth;
      extendFn := Undefined;
      superProto := None;
      new;
      proto := Layer(map["constructor" := Ctor(this)], ObjectPrototype);
    }

    /**
     * `this.extend(decls)`: validate the declarations, pick or synthesise the
     * child's constructor, and give it a prototype that delegates to this
     * type's prototype and carries the declarations as own members.
     */
    method Extend(decls: Option<map<string, Value>>) returns (r: Result<ComponentType, ExtendError>)
      ensures !RenderSupplied(proto, Declarations(decls)) ==> r == Failure(MissingRender)
      ensures RenderSupplied(proto, Declarations(decls)) && Truthy(Field(Declarations(decls), "state"))
              ==> r == Failure(ReservedState)
      ensures RenderSupplied(proto, Declarations(decls)) && !Truthy(Field(Declarations(decls), "state"))
              && "constructor" in Declarations(decls) && Primitive(Declarations(decls)["constructor"])
              ==> r == Failure(ConstructorTypeError)
      ensures r.Success? <==> RenderSupplied(proto, Declarations(decls))
                              && !Truthy(Field(Declarations(decls), "state"))
                              && !("constructor" in Declarations(decls)
                                   && Primitive(Declarations(decls)["constructor"]))
      ensures r.Success? ==>
        var child, d := r.value, Declarations(decls);
        && fresh(child)
        && child.body == (if "constructor" in d then CustomBody(d["constructor"]) else DefaultBody(this))
        && child.extendFn == extendFn
        && child.superProto == Some(proto)
        && child.proto == Layer(map["constructor" := Ctor(child)] + d, proto)
        && (Ranked() ==> child.Ranked())
        && (Ranked() && ReachesBase() && "constructor" !in d ==> child.ReachesBase())
      ensures r.Success? ==>
        var child, d := r.value, Declarations(decls);
        forall key :: Lookup(child.proto, key)
                      == if key in d then d[key]
                         else if key == "constructor" then Ctor(child)
                         else Lookup(proto, key)
      ensures r.Success? && ("render" in Declarations(decls) ==> Truthy(Declarations(decls)["render"]))
              ==> Truthy(Lookup(r.value.proto, "render"))
      ensures unchanged(this)
    {
      var d := Declarations(decls);
      if !Truthy(Lookup(proto, "render")) && !Truthy(Field(d, "render")) {
        return Failure(MissingRender);
      }
      if Truthy(Field(d, "state")) {
        return Failure(ReservedState);
      }
      if "constructor" in d && Primitive(d["constructor"]) {
        // `child.extend = …` throws on null or undefined; on any other primitive the
        // writes are lost and copying onto `child.prototype` (undefined) throws
        return Failure(ConstructorTypeError);
      }
      var child: ComponentType;
      if "constructor" in d {
        child := new ComponentType.Function(CustomBody(d["constructor"]), 0);
      } else {
        child := new ComponentType.Function(DefaultBody(this), depth + 1);
      }
      child.extendFn := extendFn;
      // `new Surrogate()`: own `constructor` is the child, delegating to this prototype
      var surrogate := map["constructor" := Ctor(child)];
      child.proto := Layer(surrogate, proto);
      CopyOwnKeys(child, d);
      child.superProto := Some(proto);
      r := Success(child);
    }

    /**
     * The `for...in` loop of `extend`: every own key of the declarations is
     * assigned onto `child.prototype`, overwriting what that layer held.
     */
    static method CopyOwnKeys(child: ComponentType, d: map<string, Value>)
      requires child.proto.Layer?
      modifies child`proto
      ensures child.proto == Layer(old(child.proto.own) + d, old(child.proto.parent))
    {
      var todo := d.Keys;
      ghost var copied: map<string, Value> := map[];
      ghost var start := child.proto;
      while todo != {}
        invariant todo <= d.Keys && copied.Keys == d.Keys - todo
        invariant forall k :: k in copied ==> copied[k] == d[k]
        invariant child.proto == Layer(start.own + copied, start.parent)
        decreases todo
      {
        var k :| k in todo;
        child.proto := Layer(child.proto.own[k := d[k]], child.proto.parent);
        copied := copied[k := d[k]];
        todo := todo - {k};
      }
      assert copied == d;
    }

    /** The constructor run with `this` bound to an instance of this type. */
    ghost function Initialised(proto: Proto, fields: map<string, Value>, args: seq<Value>,
                               run: Callback, issued: nat): (c: Construction)
      requires Ranked()
      ensures ReachesBase() ==> "state" in c.fields && c.fields["state"] == Obj(map[])
      decreases depth
    {
      match body
      case BaseBody => Constructed(proto, fields, args, run, issued)
      case DefaultBody(p) => p.Initialised(proto, fields, args, run, issued)
      case CustomBody(fn) => Construction(run(fn, fields, args), issued)
    }

    /**
     * Calling this type's constructor on `self` in place: a synthesised
     * constructor finds `self instanceof child` and hands over to its parent.
     */
    method InitInPlace(self: Instance, args: seq<Value>, run: Callback, source: EmitterSource)
      requires Ranked()
      modifies self, source
      ensures Construction(self.fields, source.issued)
           == Initialised(self.proto, old(self.fields), args, run, old(source.issued))
      decreases depth
    {
      match body
      case BaseBody =>
        self.Construct(args, run, source);
      case DefaultBody(p) =>
        p.InitInPlace(self, args, run, source);
      case CustomBody(fn) =>
        self.fields := run(fn, self.fields, args);
    }

    /** `new T(...args)`: a fresh object whose prototype is `T.prototype`, initialised in place. */
    method New(args: seq<Value>, run: Callback, source: EmitterSource) returns (self: Instance)
      requires Ranked()
      modifies source
      ensures fresh(self) && self.proto == proto
      ensures Construction(self.fields, source.issued)
           == Initialised(proto, map[], args, run, old(source.issued))
    {
      self := new Instance(proto);
      InitInPlace(self, args, run, source);
    }

    /**
     * `T(...args)` without `new`, for a synthesised constructor: it creates
     * `Object.create(child.prototype)`, applies itself to that object and returns it.
     */
    method CallWithoutNew(args: seq<Value>, run: Callback, source: EmitterSource) returns (self: Instance)
      requires Ranked() && body.DefaultBody?
      modifies source
      ensures fresh(self) && self.proto == proto
      ensures Construction(self.fields, source.issued)
           == Initialised(proto, map[], args, run, old(source.issued))
    {
      self := new Instance(proto);
      // the receiver is now an instance of this type: the second call takes the in-place path
      InitInPlace(self, args, run, source);
    }
  }
}
