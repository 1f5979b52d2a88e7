/**
 * The meta-programming utilities of metaprog_utils.py.
 *
 * A Python object is modelled by its attribute table: a finite map from attribute name to
 * the value `getattr` yields.  A heap maps object identities to such tables, so that a
 * forwarded method can name the object it forwards to, as the Python closure does.
 */
module Metaprog {
  import opened Wrappers

  type Name = string
  type ObjId = nat

  /** What looking up an attribute of a Python object yields. */
  datatype Value =
    | Data(payload: int)                   // a plain value (number, string, list, ...): not callable
    | Ref(target: ObjId)                   // a reference to another object: not callable
    | Native(methodName: Name)              // a method that the object's own class defines
    | Forwarder(to: ObjId, funcName: Name) // what CreateForwardedMethod builds

  /** Python's `callable(v)`. */
  predicate Callable(v: Value) {
    v.Native? || v.Forwarder?
  }

  type Object = map<Name, Value>
  type Heap = map<ObjId, Object>

  datatype PyError = AttributeError | TypeError | RecursionError

  /** The outcome of a Python expression: a value, or the exception it raises. */
  datatype Outcome<T> = Ok(value: T) | Raised(error: PyError)

  /**
   * Behaviour of the methods objects define themselves: receiver, method name, positional
   * arguments and keyword arguments.
   */
  type Natives = (ObjId, Name, seq<Value>, map<Name, Value>) -> Value

  /** `not name.startswith('_')` */
  predicate IsPublic(name: Name) {
    !(|name| > 0 && name[0] == '_')
  }

  /**
   * `getattr(receiver, name)(*args, **kwargs)`.  `depth` is the number of nested Python
   * frames still allowed; a forwarder that (directly or not) forwards to itself exhausts it.
   */
  function Call(heap: Heap, receiver: ObjId, name: Name, args: seq<Value>, kwargs: map<Name, Value>,
                natives: Natives, depth: nat)
    : Outcome<Value>
    decreases depth
  {
    if receiver !in heap || name !in heap[receiver] then Raised(AttributeError)
    else match heap[receiver][name]
      case Native(m) => Ok(natives(receiver, m, args, kwargs))
      case Forwarder(to, f) =>
        if depth == 0 then Raised(RecursionError) else Call(heap, to, f, args, kwargs, natives, depth - 1)
      case _ => Raised(TypeError)
  }

  // ---------------------------------------------------------------------------------------
  // create_forwarded_method

  /**
   * The bound method set on `from_` that calls `func_name` on `to`.  The receiver it is
   * bound to is ignored by the Python closure, so only `to` and `func_name` are kept.
   */
  function CreateForwardedMethod(to: ObjId, funcName: Name): (m: Value)
    ensures Callable(m)
  {
    Forwarder(to, funcName)
  }

  /**
   * Calling a forwarded method with any positional and keyword arguments calls `funcName`
   * on `to` with the same arguments.
   */
  lemma ForwardedMethodCallsTarget(heap: Heap, from: ObjId, name: Name, to: ObjId, funcName: Name,
                                   args: seq<Value>, kwargs: map<Name, Value>, natives: Natives, depth: nat)
    requires from in heap && name in heap[from]
    requires heap[from][name] == CreateForwardedMethod(to, funcName)
    ensures Call(heap, from, name, args, kwargs, natives, depth + 1)
            == Call(heap, to, funcName, args, kwargs, natives, depth)
  {
  }

  // ---------------------------------------------------------------------------------------
  // create_proxy_property

  /**
   * A Python `property` that forwards `propertyName` to the object held in the attribute
   * `targetName` of its owner; `hasSetter` says whether a setter was installed.
   */
  datatype ProxyProperty = ProxyProperty(propertyName: Name, targetName: Name, hasSetter: bool)

  /**
   * `create_proxy_property`: reading the property reads `propertyName` on the object in
   * `targetName`, and assigning it is possible exactly when `isSettable` and that object exists.
   */
  function CreateProxyProperty(propertyName: Name, targetName: Name, isSettable: bool): (p: ProxyProperty)
    ensures forall heap: Heap, self: ObjId :: PropertyGet(p, heap, self).Ok? ==>
              && PropertyTarget(heap, self, targetName).Ok?
              && propertyName in heap[PropertyTarget(heap, self, targetName).value]
              && PropertyGet(p, heap, self).value == heap[PropertyTarget(heap, self, targetName).value][propertyName]
    ensures forall heap: Heap, self: ObjId, val: Value :: PropertySet(p, heap, self, val).Ok? <==>
              isSettable && PropertyTarget(heap, self, targetName).Ok?
  {
    ProxyProperty(propertyName, targetName, isSettable)
  }

  /** `getattr(self, target_name)`: the object a proxy property forwards to. */
  function PropertyTarget(heap: Heap, self: ObjId, targetName: Name): Outcome<ObjId>
  {
    if self in heap && targetName in heap[self] && heap[self][targetName].Ref?
       && heap[self][targetName].target in heap
    then Ok(heap[self][targetName].target)
    else Raised(AttributeError)
  }

  /** The property's getter: `getattr(getattr(self, target_name), property_name)`. */
  function PropertyGet(p: ProxyProperty, heap: Heap, self: ObjId): (r: Outcome<Value>)
    ensures r.Ok? <==> PropertyTarget(heap, self, p.targetName).Ok?
                       && p.propertyName in heap[PropertyTarget(heap, self, p.targetName).value]
    ensures r.Ok? ==> r.value == heap[heap[self][p.targetName].target][p.propertyName]
  {
    match PropertyTarget(heap, self, p.targetName)
    case Ok(t) => if p.propertyName in heap[t] then Ok(heap[t][p.propertyName]) else Raised(AttributeError)
    case Raised(e) => Raised(e)
  }

  /**
   * Assigning through the property: `setattr(getattr(self, target_name), property_name, val)`
   * when a setter exists; a read-only property raises AttributeError.
   */
  function PropertySet(p: ProxyProperty, heap: Heap, self: ObjId, val: Value): (r: Outcome<Heap>)
    ensures !p.hasSetter ==> r == Raised(AttributeError)
    ensures r.Ok? <==> p.hasSetter && PropertyTarget(heap, self, p.targetName).Ok?
    ensures r.Ok? ==> r.value.Keys == heap.Keys
    ensures r.Ok? ==> var t := heap[self][p.targetName].target;
                      && r.value[t] == heap[t][p.propertyName := val]
                      && forall o :: o in heap && o != t ==> r.value[o] == heap[o]
  {
    if !p.hasSetter then Raised(AttributeError)
    else match PropertyTarget(heap, self, p.targetName)
      case Ok(t) => Ok(heap[t := heap[t][p.propertyName := val]])
      case Raised(e) => Raised(e)
  }

  /** Reading a settable proxy property right after assigning it yields the assigned value. */
  lemma {:induction false} SetThenGet(p: ProxyProperty, heap: Heap, self: ObjId, val: Value)
    requires p.hasSetter && p.propertyName != p.targetName
    requires PropertySet(p, heap, self, val).Ok?
    ensures PropertyGet(p, PropertySet(p, heap, self, val).value, self) == Ok(val)
  {
    var t := PropertyTarget(heap, self, p.targetName).value;
    var heap' := PropertySet(p, heap, self, val).value;
    assert heap'[t] == heap[t][p.propertyName := val];
    assert heap'[self][p.targetName] == heap[self][p.targetName] by {
      if self != t {
        assert heap'[self] == heap[self];
      }
    }
    assert PropertyTarget(heap', self, p.targetName) == Ok(t);
  }

  // ---------------------------------------------------------------------------------------
  // create_proxy_interface

  /** `if not ignore_list: ignore_list = []`: `None` and the empty list both ignore nothing. */
  function IgnoreNames(ignoreList: Option<seq<Name>>): (ignore: seq<Name>)
    ensures ignoreList.None? ==> ignore == []
    ensures ignoreList.Some? ==> ignore == ignoreList.value
  {
    if ignoreList.None? || ignoreList.value == [] then [] else ignoreList.value
  }

  /** The test an attribute of `to` passes to be copied onto `from`. */
  predicate Forwardable(name: Name, from: Object, to: Object, ignore: seq<Name>, overrideExisting: bool)
  {
    && name in to
    && IsPublic(name)
    && name !in ignore
    && Callable(to[name])
    && (overrideExisting || name !in from)
  }

  /** The names create_proxy_interface adds or replaces on `from`. */
  function ForwardedNames(from: Object, to: Object, ignore: seq<Name>, overrideExisting: bool): set<Name>
  {
    set name | name in to.Keys && Forwardable(name, from, to, ignore, overrideExisting)
  }

  /**
   * Reference definition of the attribute table of `from` after create_proxy_interface:
   * the forwardable names of `to` become forwarders to `toId`; every other attribute of
   * `from` is as it was.
   */
  function ProxyInterface(from: Object, to: Object, toId: ObjId, ignoreList: Option<seq<Name>>,
                          overrideExisting: bool): Object
  {
    var added := ForwardedNames(from, to, IgnoreNames(ignoreList), overrideExisting);
    map name | name in from.Keys + added ::
      if name in added then CreateForwardedMethod(toId, name) else from[name]
  }

  /** The attribute table of `from` once the names in `visited` have been considered. */
  function InterfaceSoFar(from: Object, to: Object, toId: ObjId, ignore: seq<Name>, overrideExisting: bool,
                          visited: set<Name>): Object
  {
    var added := set name | name in visited && Forwardable(name, from, to, ignore, overrideExisting);
    map name | name in from.Keys + added :: if name in added then CreateForwardedMethod(toId, name) else from[name]
  }

  /** Considering one more name adds its forwarder exactly when the name passes the filter. */
  lemma {:induction false} InterfaceStep(from: Object, to: Object, toId: ObjId, ignore: seq<Name>,
                                         overrideExisting: bool, visited: set<Name>, name: Name)
    requires name !in visited
    ensures var before := InterfaceSoFar(from, to, toId, ignore, overrideExisting, visited);
            InterfaceSoFar(from, to, toId, ignore, overrideExisting, visited + {name})
            == if Forwardable(name, from, to, ignore, overrideExisting) then before[name := Forwarder(toId, name)] else before
  {
    var before := InterfaceSoFar(from, to, toId, ignore, overrideExisting, visited);
    var after := InterfaceSoFar(from, to, toId, ignore, overrideExisting, visited + {name});
    var expected := if Forwardable(name, from, to, ignore, overrideExisting) then before[name := Forwarder(toId, name)] else before;
    assert after.Keys == expected.Keys;
    forall n | n in after.Keys
      ensures after[n] == expected[n]
    {
    }
  }

  /**
   * create_proxy_interface: walk the attributes of `to` (in whatever order `dir` lists them)
   * and set a forwarder on `from` for each public, non-ignored, callable one that `from`
   * lacks, or for every such one when `overrideExisting` holds.
   */
  method CreateProxyInterface(from: Object, to: Object, toId: ObjId, ignoreList: Option<seq<Name>>,
                              overrideExisting: bool) returns (updated: Object)
    ensures updated == ProxyInterface(from, to, toId, ignoreList, overrideExisting)
  {
    var ignore := IgnoreNames(ignoreList);
    updated := from;
    var pending := to.Keys;
    ghost var done: set<Name> := {};
    assert updated == InterfaceSoFar(from, to, toId, ignore, overrideExisting, done);
    while pending != {}
      invariant pending !! done && pending + done == to.Keys
      invariant updated == InterfaceSoFar(from, to, toId, ignore, overrideExisting, done)
      decreases pending
    {
      var name :| name in pending;
      InterfaceStep(from, to, toId, ignore, overrideExisting, done, name);
      assert name in updated <==> name in from;
      if IsPublic(name) && name !in ignore {
        if Callable(to[name]) {
          if overrideExisting || name !in updated {
            updated := updated[name := CreateForwardedMethod(toId, name)];
          }
        }
      }
      pending := pending - {name};
      done := done + {name};
    }
    assert updated.Keys == ProxyInterface(from, to, toId, ignoreList, overrideExisting).Keys;
  }

  // ---------------------------------------------------------------------------------------
  // Properties of the forwarding surface

  /** Every public, non-ignored, callable attribute of `to` ends up on `from` (a forwarder, or `from`'s own when kept). */
  lemma EligibleNamesPresent(from: Object, to: Object, toId: ObjId, ignoreList: Option<seq<Name>>,
                             overrideExisting: bool, name: Name)
    requires name in to && IsPublic(name) && name !in IgnoreNames(ignoreList) && Callable(to[name])
    ensures var r := ProxyInterface(from, to, toId, ignoreList, overrideExisting);
            && name in r
            && (overrideExisting || name !in from ==> r[name] == Forwarder(toId, name))
  {
  }

  /** A name is made a forwarder exactly when it passes the filter; everything else of `from` is left as it was. */
  lemma ForwardedExactly(from: Object, to: Object, toId: ObjId, ignoreList: Option<seq<Name>>,
                         overrideExisting: bool, name: Name)
    ensures var r := ProxyInterface(from, to, toId, ignoreList, overrideExisting);
            && (name in r <==> name in from || Forwardable(name, from, to, IgnoreNames(ignoreList), overrideExisting))
            && (Forwardable(name, from, to, IgnoreNames(ignoreList), overrideExisting) ==> r[name] == Forwarder(toId, name))
            && (!Forwardable(name, from, to, IgnoreNames(ignoreList), overrideExisting) && name in from ==> r[name] == from[name])
  {
  }

  /** Private names and ignored names are never added to `from` nor changed on it. */
  lemma PrivateAndIgnoredUntouched(from: Object, to: Object, toId: ObjId, ignoreList: Option<seq<Name>>,
                                   overrideExisting: bool, name: Name)
    requires !IsPublic(name) || name in IgnoreNames(ignoreList)
    ensures var r := ProxyInterface(from, to, toId, ignoreList, overrideExisting);
            && (name in r <==> name in from)
            && (name in from ==> r[name] == from[name])
  {
  }

  /** Attributes of `to` that are not callable are never copied. */
  lemma NonCallableNeverCopied(from: Object, to: Object, toId: ObjId, ignoreList: Option<seq<Name>>,
                               overrideExisting: bool, name: Name)
    requires name in to && !Callable(to[name])
    ensures var r := ProxyInterface(from, to, toId, ignoreList, overrideExisting);
            && (name in r <==> name in from)
            && (name in from ==> r[name] == from[name])
  {
  }

  /** Without `overrideExisting` every attribute `from` already had keeps its value. */
  lemma ExistingKeptWithoutOverride(from: Object, to: Object, toId: ObjId, ignoreList: Option<seq<Name>>,
                                    name: Name)
    requires name in from
    ensures ProxyInterface(from, to, toId, ignoreList, false)[name] == from[name]
  {
  }

  /** With `overrideExisting` an eligible attribute `from` already had is replaced by the forwarder. */
  lemma ExistingReplacedWithOverride(from: Object, to: Object, toId: ObjId, ignoreList: Option<seq<Name>>,
                                     name: Name)
    requires name in from && name in to && IsPublic(name) && name !in IgnoreNames(ignoreList) && Callable(to[name])
    ensures ProxyInterface(from, to, toId, ignoreList, true)[name] == Forwarder(toId, name)
  {
  }

  /** An ignore list of `None` behaves exactly as the empty list. */
  lemma NoIgnoreListIsEmptyList(from: Object, to: Object, toId: ObjId, overrideExisting: bool)
    ensures ProxyInterface(from, to, toId, None, overrideExisting) == ProxyInterface(from, to, toId, Some([]), overrideExisting)
  {
  }

  /**
   * Surface equivalence: once `from` carries the proxy interface, calling a forwarded name on
   * `from` gives what calling that method directly on the real object `to` gives, with the
   * same arguments, one frame deeper.
   */
  lemma SurfaceEquivalence(heap: Heap, fromId: ObjId, toId: ObjId, ignoreList: Option<seq<Name>>,
                           overrideExisting: bool, name: Name, args: seq<Value>, kwargs: map<Name, Value>,
                           natives: Natives, depth: nat)
    requires fromId in heap && toId in heap && fromId != toId
    requires Forwardable(name, heap[fromId], heap[toId], IgnoreNames(ignoreList), overrideExisting)
    requires heap[toId][name].Native?
    ensures var proxied := heap[fromId := ProxyInterface(heap[fromId], heap[toId], toId, ignoreList, overrideExisting)];
            Call(proxied, fromId, name, args, kwargs, natives, depth + 1)
            == Call(heap, toId, name, args, kwargs, natives, depth)
  {
  }
}
