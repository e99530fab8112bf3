/**
 * Properties of the `virtual-dom-component` model: how the events array is
 * turned into emitters, what construction leaves in `state` and `events`,
 * how synthesised constructors delegate, and what a derived prototype yields.
 */
module ComponentProperties {
  import opened VirtualComponent

  // ---------------------------------------------------------------------------
  // The events map built from an array of names
  // ---------------------------------------------------------------------------

  /** Each name is bound to the emitter made for its last occurrence in the array. */
  lemma {:induction false} EventsBindLastOccurrence(names: seq<string>, base: nat, n: string)
    requires n in names
    ensures n in EventsFrom(names, base)
    ensures EventsFrom(names, base)[n] == Emitter(base + LastIndex(names, n))
  {
    var last := |names| - 1;
    if names[last] != n {
      assert names == names[..last] + [names[last]];
      EventsBindLastOccurrence(names[..last], base, n);
    }
  }

  /** Two different names never share an emitter. */
  lemma EmittersDistinct(names: seq<string>, base: nat, n1: string, n2: string)
    requires n1 in names && n2 in names && n1 != n2
    ensures EventsFrom(names, base)[n1] != EventsFrom(names, base)[n2]
  {
    EventsBindLastOccurrence(names, base, n1);
    EventsBindLastOccurrence(names, base, n2);
  }

  /**
   * Every emitter in the map was made by this loop: its id lies between the
   * factory's count before the loop and its count after it.
   */
  lemma EmittersFresh(names: seq<string>, base: nat, n: string)
    requires n in names
    ensures EventsFrom(names, base)[n].Emitter?
    ensures base <= EventsFrom(names, base)[n].id < base + |names|
  {
    EventsBindLastOccurrence(names, base, n);
  }

  // ---------------------------------------------------------------------------
  // Construction
  // ---------------------------------------------------------------------------

  /**
   * An events array seen after `initialize` becomes a map whose keys are exactly
   * its names, each bound to a distinct emitter made during this construction.
   */
  lemma ArrayEventsBecomeEmitters(proto: Proto, fields: map<string, Value>, args: seq<Value>,
                                  run: Callback, issued: nat)
    requires Get(proto, AfterInitialize(proto, fields, args, run), "events").Names?
    ensures var names := Get(proto, AfterInitialize(proto, fields, args, run), "events").names;
            var c := Constructed(proto, fields, args, run, issued);
            && c.fields["events"].Obj?
            && c.fields["events"].fields.Keys == set n | n in names
            && c.issued == issued + |names|
            && (forall n :: n in names ==>
                  && c.fields["events"].fields[n] == Emitter(issued + LastIndex(names, n))
                  && issued <= c.fields["events"].fields[n].id < c.issued)
            && (forall n1, n2 :: n1 in names && n2 in names && n1 != n2 ==>
                  c.fields["events"].fields[n1] != c.fields["events"].fields[n2])
  {
    var names := Get(proto, AfterInitialize(proto, fields, args, run), "events").names;
    forall n | n in names
      ensures EventsFrom(names, issued)[n] == Emitter(issued + LastIndex(names, n))
    {
      EventsBindLastOccurrence(names, issued, n);
    }
    forall n1, n2 | n1 in names && n2 in names && n1 != n2
      ensures EventsFrom(names, issued)[n1] != EventsFrom(names, issued)[n2]
    {
      EmittersDistinct(names, issued, n1, n2);
    }
  }

  /** A non-array `events` value is kept when truthy and replaced by `{}` when falsy; no emitter is made. */
  lemma OtherEventsKept(proto: Proto, fields: map<string, Value>, args: seq<Value>,
                        run: Callback, issued: nat)
    requires !Get(proto, AfterInitialize(proto, fields, args, run), "events").Names?
    ensures var declared := Get(proto, AfterInitialize(proto, fields, args, run), "events");
            var c := Constructed(proto, fields, args, run, issued);
            && c.fields["events"] == (if Truthy(declared) then declared else Obj(map[]))
            && c.issued == issued
  {
  }

  /** Besides `events` and `state`, the instance keeps exactly the own fields `initialize` left. */
  lemma OtherFieldsAsInitialized(proto: Proto, fields: map<string, Value>, args: seq<Value>,
                                 run: Callback, issued: nat, key: string)
    requires key != "events" && key != "state"
    ensures var after := AfterInitialize(proto, fields, args, run);
            var c := Constructed(proto, fields, args, run, issued);
            && (key in c.fields <==> key in after)
            && (key in after ==> c.fields[key] == after[key])
  {
  }

  /**
   * However long the chain of synthesised constructors, constructing an
   * instance of a type that reaches the base runs exactly the base body once.
   */
  lemma {:induction false} DelegationRunsBaseBody(t: ComponentType, proto: Proto,
                                                  fields: map<string, Value>, args: seq<Value>,
                                                  run: Callback, issued: nat)
    requires t.Ranked() && t.ReachesBase()
    ensures t.Initialised(proto, fields, args, run, issued)
         == Constructed(proto, fields, args, run, issued)
    decreases t.depth
  {
    match t.body
    case BaseBody =>
    case DefaultBody(p) =>
      DelegationRunsBaseBody(p, proto, fields, args, run, issued);
  }

  // ---------------------------------------------------------------------------
  // Derived prototypes
  // ---------------------------------------------------------------------------

  /**
   * The render check looks at the parent and at the declarations separately,
   * so `A.extend({render: null})` passes it and the child's prototype then
   * hides A's render.
   */
  method FalsyRenderShadowsParent() returns (child: ComponentType)
    ensures child.superProto.Some? && Truthy(Lookup(child.superProto.value, "render"))
    ensures !Truthy(Lookup(child.proto, "render"))
  {
    var base := new ComponentType.Base();
    var r := base.Extend(Some(map["render" := Func(1)]));
    assert r.Success?;
    var a := r.value;
    r := a.Extend(Some(map["render" := Falsy]));
    assert r.Success?;
    child := r.value;
  }

  /**
   * `A = Base.extend({render: f})`, `B = A.extend({greet: g})`: B's prototype
   * finds both members and A's prototype is left without `greet`.
   */
  method DerivedFromDerived()
  {
    var base := new ComponentType.Base();
    var r := base.Extend(Some(map["render" := Func(1)]));
    assert r.Success?;
    var a := r.value;
    r := a.Extend(Some(map["greet" := Func(2)]));
    assert r.Success?;
    var b := r.value;
    assert Lookup(b.proto, "render") == Func(1);
    assert Lookup(b.proto, "greet") == Func(2);
    assert Lookup(base.proto, "greet") == Undefined;
    assert Lookup(a.proto, "greet") == Undefined;
    assert b.superProto == Some(a.proto) && b.extendFn == ExtendFn;
  }

  /**
   * With and without `new`, an instance of `Base.extend({render, events: ['inc']})`
   * starts with an empty `state`; the first gets a fresh emitter for `inc`.
   */
  method BothConstructionPaths(run: Callback)
  {
    var base := new ComponentType.Base();
    var source := new EmitterSource();
    var r := base.Extend(Some(map["render" := Func(1), "events" := Names(["inc"])]));
    assert r.Success?;
    var counter := r.value;
    ghost var before := source.issued;
    var viaNew := counter.New([], run, source);
    assert viaNew.fields["state"] == Obj(map[]);
    // no `initialize` is declared, so the declared array reaches the events loop
    assert Lookup(base.proto, "initialize") == Undefined;
    assert Get(counter.proto, AfterInitialize(counter.proto, map[], [], run), "events") == Names(["inc"]);
    DelegationRunsBaseBody(counter, counter.proto, map[], [], run, before);
    ArrayEventsBecomeEmitters(counter.proto, map[], [], run, before);
    assert viaNew.fields["events"] == Obj(map["inc" := Emitter(before)]);
    var viaCall := counter.CallWithoutNew([], run, source);
    assert viaCall.fields["state"] == Obj(map[]);
    assert viaNew.proto == viaCall.proto == counter.proto;
  }

  /** The ways `extend` refuses declarations, in the order it checks them. */
  method ExtendErrors()
  {
    var base := new ComponentType.Base();
    assert Lookup(base.proto, "render") == Undefined;
    var bad := base.Extend(None);
    assert bad == Failure(MissingRender);
    bad := base.Extend(Some(map["state" := Obj(map[])]));
    assert bad == Failure(MissingRender);
    bad := base.Extend(Some(map["render" := Func(1), "state" := Obj(map[])]));
    assert bad == Failure(ReservedState);
    bad := base.Extend(Some(map["render" := Func(1), "constructor" := Falsy]));
    assert bad == Failure(ConstructorTypeError);
  }
}
