# virtual-dom-component in Dafny

A model of `virtual-dom-component`, a small JavaScript library that gives UI
components a common shape. It has two parts:

- `VirtualComponent`, the base constructor. It runs an optional `initialize`
  with the constructor arguments. It turns an `events` array of names into a
  map from each name to a fresh single-event emitter. It resets `state` to an
  empty object.
- `VirtualComponent.extend(declarations)`. It derives a new component type. It
  refuses declarations when no truthy `render` is reachable, and when they carry
  a truthy `state`. A declared `constructor` that is a primitive ends in a
  `TypeError`. It picks the declared `constructor` or synthesises one that
  works both with and without `new`. It builds a prototype that delegates to the
  parent's prototype and copies the declarations onto it.

Files:

- `virtual_dom_component.dfy`, module `VirtualComponent`, holds the model:
  - a small `Value` datatype for the JavaScript values the library tells apart;
  - prototype chains as explicit layers of member maps (`Proto`, `Lookup`);
  - the classes `ComponentType`, `Instance` and `EmitterSource`;
  - `Extend` and the construction methods, with the functions that specify them.
- `component_properties.dfy`, module `ComponentProperties`, holds the lemmas
  about those functions. It also holds client methods that run usage scenarios
  against the contracts: derived-from-derived types, construction with and
  without `new`, the `extend` errors, and a falsy `render` that hides the
  parent's.

Modelling choices:

- Truthiness is a predicate on `Value`: only `Undefined` and `Falsy` are false.
- User code is a `Callback` parameter. Calling `initialize`, or a custom
  `constructor`, maps the receiver's own fields and the arguments to new own
  fields.
- The external emitter factory (`geval/single`) is `EmitterSource`. It is a
  counter, and every `Event()` returns an emitter id that was never issued.
- The `this instanceof child` test of the synthesised constructor becomes two
  explicit operations. `New` is `new T(...)`: it allocates, then initialises in
  place. `CallWithoutNew` is `T(...)`: `Object.create(T.prototype)`, then the
  same in-place initialisation.

Three behaviours of the code a reader may not expect, all modelled as written:

- The reserved-`state` check tests truthiness, not presence. `state: null`
  passes it and is copied onto the prototype (construction then shadows it).
- The render check looks at the parent's chain and at the declarations
  separately. So a falsy own `render` in the declarations passes when the
  parent has one, and then hides the parent's render on the child
  (`FalsyRenderShadowsParent`).
- `new Surrogate()` gives the child's prototype an own `constructor` that is the
  child itself. So `constructor` is found on the child's prototype, not looked
  up in the parent's chain, unless the declarations supply one.

## Model

| member | source | states |
|---|---|---|
| `VirtualComponent.ComponentType.Extend` | lib/virtual-dom-component.js:58-103 | Fails with `MissingRender` exactly when neither the parent's prototype chain nor the declarations (an omitted object counts as `{}`) give a truthy `render`. That check comes first. Otherwise it fails with `ReservedState` exactly when the declarations carry a truthy `state`. Otherwise it fails with `ConstructorTypeError` exactly when the declared own `constructor` is a primitive (null, undefined or another primitive), where the writes of lines 86 and 96 throw. On success the child is fresh. Its constructor is the declared own `constructor`, or else a synthesised one that delegates to this type. It gets this type's `extend` and `__super__` = this type's prototype. Its prototype is a layer holding `constructor: child` overlaid by every declared key, delegating to this prototype. So lookup returns the declared value, else the child for `constructor`, else the parent chain's value. A truthy `render` is reachable from the child unless the declarations carry a falsy own one. The parent is unchanged. |
| `VirtualComponent.ComponentType.CopyOwnKeys` | lib/virtual-dom-component.js:94-98 | The `for...in` copy leaves the child's prototype layer holding its previous own members overlaid by every declared own key, still delegating to the same parent |
| `VirtualComponent.ComponentType.Base` | lib/virtual-dom-component.js:11-23 | The exported `VirtualComponent`: its prototype holds only `constructor`, it carries the library's `extend`, and it delegates to nothing else |
| `VirtualComponent.ComponentType.Function` | lib/virtual-dom-component.js:72-84 | A newly made constructor function (declared or synthesised) has its own default prototype and no `extend` or `__super__` until `Extend` assigns them |
| `VirtualComponent.ComponentType.Initialised` | lib/virtual-dom-component.js:72-83 | Specifies running a type's constructor on a receiver. A synthesised constructor hands over to its parent, the base runs the `VirtualComponent` body, and a custom constructor runs the caller's code. Whenever delegation reaches the base, `state` ends up empty. |
| `VirtualComponent.ComponentType.InitInPlace` | lib/virtual-dom-component.js:75-83 | Initialising a receiver in place (the `new` path, `parent.apply(this, arguments)`) leaves exactly the fields and emitter count that `Initialised` gives |
| `VirtualComponent.ComponentType.New` | lib/virtual-dom-component.js:75-83 | `new T(...)` yields a fresh instance whose prototype is `T.prototype`, initialised as `Initialised` gives from no own fields |
| `VirtualComponent.ComponentType.CallWithoutNew` | lib/virtual-dom-component.js:75-80 | Calling a synthesised constructor without `new` allocates an instance of the child, initialises it the same way, and returns it. Its result is the one `New` promises for the same arguments and emitter count. |
| `VirtualComponent.Instance.constructor` | lib/virtual-dom-component.js:77 | `Object.create(proto)`: no own fields, the given prototype |
| `VirtualComponent.Instance.Construct` | lib/virtual-dom-component.js:23-43 | The body of `VirtualComponent` on a receiver leaves its own fields and the emitter count exactly as `Constructed` gives |
| `VirtualComponent.Constructed` | lib/virtual-dom-component.js:23-43 | After construction `state` is an empty object whatever `initialize` set, `events` is always a truthy own field, and the emitter count never goes down |
| `VirtualComponent.EmitterSource.constructor` | lib/virtual-dom-component.js:9 | A new factory has issued no emitters |
| `VirtualComponent.EmitterSource.Event` | lib/virtual-dom-component.js:34 | `Event()` returns an emitter whose id no earlier call returned, and counts it |
| `VirtualComponent.BuildEvents` | lib/virtual-dom-component.js:31-35 | The indexed loop makes one new emitter per array position, leaving exactly the map `EventsFrom` gives for the factory's count before the loop, and advances the count by the array's length |
| `VirtualComponent.LastIndex` | lib/virtual-dom-component.js:32-35 | The position of a name's last occurrence: it holds that name and no later position does |
| `VirtualComponent.EventsFrom` | lib/virtual-dom-component.js:30-36 | The map built by the events loop has exactly the names of the array as keys |
| `ComponentProperties.EventsBindLastOccurrence` | lib/virtual-dom-component.js:32-35 | A repeated name keeps the emitter made at its last occurrence |
| `ComponentProperties.EmittersDistinct` | lib/virtual-dom-component.js:33-34 | Two different names are bound to different emitters |
| `ComponentProperties.EmittersFresh` | lib/virtual-dom-component.js:34 | Every emitter in the map was made by this loop: its id lies between the factory's count before and after it |
| `ComponentProperties.ArrayEventsBecomeEmitters` | lib/virtual-dom-component.js:30-36 | If `events` (own or inherited, after `initialize`) is an array, the instance's `events` becomes an object. Its keys are exactly the array's names, and each is bound to the emitter of its last occurrence. Those emitters are pairwise distinct and fresh for this construction, and the factory advances by the array's length. |
| `ComponentProperties.OtherEventsKept` | lib/virtual-dom-component.js:37-39 | A non-array `events` is kept when truthy and becomes `{}` when falsy; no emitter is made |
| `ComponentProperties.OtherFieldsAsInitialized` | lib/virtual-dom-component.js:24-42 | Besides `events` and `state`, construction keeps exactly the own fields `initialize` left |
| `ComponentProperties.DelegationRunsBaseBody` | lib/virtual-dom-component.js:75-83 | However long the chain of synthesised constructors, initialising an instance whose chain reaches `VirtualComponent` is exactly one run of the base body |
| `ComponentProperties.FalsyRenderShadowsParent` | lib/virtual-dom-component.js:64-70 | A concrete case run through `Extend`: `A.extend({render: null})` for an `A` with a render succeeds, its `__super__` yields a truthy `render`, yet its own prototype yields none |

## Left out

- Members of `Object.prototype` and `Function.prototype` (`hasOwnProperty`, `toString`, …) are not modelled. Every chain ends in `ObjectPrototype`, where lookup gives `undefined`.
- JavaScript values are reduced to `Value`. An `events` array holds strings only; the key conversion of other elements, and keys such as `__proto__`, are not modelled. The declarations argument is either an object (`Some`) or omitted/falsy (`None`). A truthy non-object argument is not modelled.
- A truthy `initialize` that is not a function makes the source throw a `TypeError`. The model treats every truthy `initialize` as callable.
- Errors thrown by `initialize`, `render` or a custom constructor are not modelled; they would propagate to the caller unchanged.
- VirtualComponent.ComponentType.InitInPlace: a declared `constructor` that is an object but not a function (an `Obj` or `Names` value) is run as a callback. In the source, `new T()` on such a type throws "T is not a constructor". The same holds for `New`.
- VirtualComponent.Constructed: events are values, so sharing is lost. Line 38 stores on each instance the very `events` object found on the prototype. So all instances of a type declared with `events: {…}` share one object, and a write through one instance is seen by all. The same holds for `ComponentProperties.OtherEventsKept`, which states only that the value is kept.
- Callbacks change only the receiver's own fields. They cannot touch prototypes, other objects or the emitter factory. A custom constructor's return value is ignored.
- `VirtualComponent.ComponentType.Extend`: a declared `constructor` is represented by a fresh type object. The source writes `extend`, `prototype` and `__super__` onto the caller's own function, so using one function in two `extend` calls would make the second overwrite the first. That aliasing is not modelled.
- `VirtualComponent.ComponentType.CallWithoutNew`: requires a synthesised constructor. Calling the base or a custom constructor without `new` runs on the global object or in user code, and that is not modelled. Applying a synthesised constructor with `call` to an unrelated receiver is not modelled either.
- The internals of the `geval/single` emitter (subscribe, emit) are not modelled. An emitter is an opaque id.
- `extend` invoked with a `this` that is not a component type (through `call`/`apply`) is not modelled.
- Enumeration order of the `for...in` copy is not modelled. The loop picks the keys in any order, and the result does not depend on it.
