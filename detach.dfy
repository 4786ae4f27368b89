/**
 * Detachment: the deep copy that turns a store-bound object into a free-standing one
 * (`Object.detached()`, the two `List.detached()` overloads and the `Sequence` /
 * `RealmCollection` mapping versions).
 *
 * An object is modelled as a value: its kind (the class it was built from, which
 * carries the class's schema and the property values a fresh `init()` starts with)
 * and the values its properties currently hold, keyed by property name.  A property
 * absent from `values` reads as `nil`.  Because the copy walks the graph without a
 * visited set, the model ranges over finite trees: the recursion below terminates by
 * structural decrease, and a sub-object reached twice is simply copied twice.
 */
module Detach {
  import opened Wrappers

  /** A value a primitive property may hold. */
  datatype Scalar =
    | IntValue(i: int)
    | BoolValue(b: bool)
    | StringValue(s: string)
    | DataValue(bytes: seq<bv8>)

  /** How the schema says a property is stored. */
  datatype PropertyKind =
    | Primitive  // a plain value, copied as it is
    | ToOne      // a link to one nested object
    | ToMany     // a list (`isArray`), of objects or of primitives

  datatype Property = Property(name: string, kind: PropertyKind)

  /** An object class: its schema, in declaration order, and the values `init()` gives its properties. */
  datatype Kind = Kind(name: string, properties: seq<Property>, defaults: map<string, Value>)

  /** What `value(forKey:)` can return for a property that is not `nil`. */
  datatype Value =
    | Plain(scalar: Scalar)
    | Link(target: Object)
    | ObjectList(objects: seq<Object>)
    | ScalarList(scalars: seq<Scalar>)

  /** A live object: its kind and the non-`nil` values of its properties. */
  datatype Object = Object(kind: Kind, values: map<string, Value>)

  /** `value(forKey:)`: the value stored under `name`, or `nil`. */
  function Get(values: map<string, Value>, name: string): Option<Value>
  {
    if name in values then Some(values[name]) else None
  }

  /** `setValue(_:forKey:)`: storing `nil` clears the property. */
  function SetValue(values: map<string, Value>, name: string, v: Option<Value>): (r: map<string, Value>)
    ensures Get(r, name) == v
    ensures forall other :: other != name ==> Get(r, other) == Get(values, other)
  {
    match v
    case Some(x) => values[name := x]
    case None => values - {name}
  }

  /** The names declared by a schema. */
  function Names(properties: seq<Property>): set<string>
  {
    set p | p in properties :: p.name
  }

  /** No two properties of a schema share a name. */
  predicate UniqueNames(properties: seq<Property>)
  {
    forall i, j :: 0 <= i < j < |properties| ==> properties[i].name != properties[j].name
  }

  // ---------------------------------------------------------------------------
  // The copy, as functions

  /** `detached()` of an object: a fresh instance of the same kind, filled property by property. */
  function Detach(o: Object): Object
    decreases o, 3
  {
    Object(o.kind, CopyProperties(o, o.kind.properties))
  }

  /**
   * The property values of the copy after the loop has visited `properties`, in order,
   * starting from the values a fresh instance of the kind has.
   */
  function CopyProperties(source: Object, properties: seq<Property>): map<string, Value>
    decreases source, 2, |properties|
  {
    if properties == [] then source.kind.defaults
    else
      var last := |properties| - 1;
      Visit(source, properties[last], CopyProperties(source, properties[..last]))
  }

  /** One turn of the loop: `nil` is skipped, lists and links are detached, anything else is copied. */
  function Visit(source: Object, property: Property, values: map<string, Value>): map<string, Value>
    decreases source, 1
  {
    if property.name !in source.values then values
    else
      var v := source.values[property.name];
      match property.kind
      case ToMany => SetValue(values, property.name, DetachedValue(v))
      case ToOne => SetValue(values, property.name, DetachedValue(v))
      case Primitive => values[property.name := v]
  }

  /**
   * `(value as? DetachableObject)?.detached()`: objects and lists are detachable, a plain
   * value is not and yields `nil`.
   */
  function DetachedValue(v: Value): Option<Value>
    decreases v, 0
  {
    match v
    case Plain(_) => None
    case Link(target) => Some(Link(Detach(target)))
    case ObjectList(objects) => Some(ObjectList(DetachAll(objects)))
    case ScalarList(scalars) => Some(ScalarList(scalars))
  }

  /**
   * `Sequence.detached()` and `RealmCollection.detached()`, and the mapping inside
   * `List.detached()` for object elements: every element detached, in order.
   */
  function DetachAll(objects: seq<Object>): (r: seq<Object>)
    ensures |r| == |objects|
    ensures forall j :: 0 <= j < |objects| ==> r[j] == Detach(objects[j])
    decreases objects, 0
  {
    if objects == [] then [] else [Detach(objects[0])] + DetachAll(objects[1..])
  }

  // ---------------------------------------------------------------------------
  // What a detached object holds, property by property

  /** A visit touches only the property it visits. */
  lemma VisitFrame(source: Object, property: Property, values: map<string, Value>, name: string)
    requires name != property.name
    ensures Get(Visit(source, property, values), name) == Get(values, name)
  {
  }

  /** A name the schema does not declare keeps the value `init()` gave it. */
  lemma {:induction false} CopyPropertiesElsewhere(source: Object, properties: seq<Property>, name: string)
    requires forall i :: 0 <= i < |properties| ==> properties[i].name != name
    ensures Get(CopyProperties(source, properties), name) == Get(source.kind.defaults, name)
  {
    if properties != [] {
      var last := |properties| - 1;
      CopyPropertiesElsewhere(source, properties[..last], name);
      VisitFrame(source, properties[last], CopyProperties(source, properties[..last]), name);
    }
  }

  /** A declared property ends up as the one visit of it, applied to the value `init()` gave it, leaves it. */
  lemma {:induction false} CopyPropertiesAt(source: Object, properties: seq<Property>, j: nat)
    requires UniqueNames(properties) && j < |properties|
    ensures Get(CopyProperties(source, properties), properties[j].name)
         == Get(Visit(source, properties[j], source.kind.defaults), properties[j].name)
  {
    var last := |properties| - 1;
    var before := properties[..last];
    if j == last {
      CopyPropertiesElsewhere(source, before, properties[j].name);
    } else {
      CopyPropertiesAt(source, before, j);
      VisitFrame(source, properties[last], CopyProperties(source, before), properties[j].name);
    }
  }

  /**
   * Each property of the copy is set only from the same-named property of the source:
   * a `nil` source property keeps the value a fresh instance has, a primitive is copied
   * unchanged, a link holds the detached copy of the linked object, a list of objects
   * holds the detached elements in the same order, a list of primitives the same
   * elements, and a plain value found where a link or list was declared yields `nil`.
   */
  lemma DetachField(o: Object, i: nat)
    requires UniqueNames(o.kind.properties) && i < |o.kind.properties|
    ensures Detach(o).kind == o.kind
    ensures var p := o.kind.properties[i];
      p.name !in o.values ==> Get(Detach(o).values, p.name) == Get(o.kind.defaults, p.name)
    ensures var p := o.kind.properties[i];
      p.name in o.values && p.kind == Primitive ==> Get(Detach(o).values, p.name) == Some(o.values[p.name])
    ensures var p := o.kind.properties[i];
      p.name in o.values && p.kind != Primitive && o.values[p.name].Link? ==>
        Get(Detach(o).values, p.name) == Some(Link(Detach(o.values[p.name].target)))
    ensures var p := o.kind.properties[i];
      p.name in o.values && p.kind != Primitive && o.values[p.name].ObjectList? ==>
        var source := o.values[p.name].objects;
        var copy := Get(Detach(o).values, p.name);
        copy.Some? && copy.value.ObjectList? && |copy.value.objects| == |source| &&
        forall j :: 0 <= j < |source| ==> copy.value.objects[j] == Detach(source[j])
    ensures var p := o.kind.properties[i];
      p.name in o.values && p.kind != Primitive && o.values[p.name].ScalarList? ==>
        Get(Detach(o).values, p.name) == Some(o.values[p.name])
    ensures var p := o.kind.properties[i];
      p.name in o.values && p.kind != Primitive && o.values[p.name].Plain? ==>
        Get(Detach(o).values, p.name) == None
  {
    CopyPropertiesAt(o, o.kind.properties, i);
  }

  /** A name the schema does not declare is never copied: the copy holds what `init()` gave it. */
  lemma DetachUndeclared(o: Object, name: string)
    requires name !in Names(o.kind.properties)
    ensures Get(Detach(o).values, name) == Get(o.kind.defaults, name)
  {
    forall i | 0 <= i < |o.kind.properties| ensures o.kind.properties[i].name != name {
      assert o.kind.properties[i] in o.kind.properties;
    }
    CopyPropertiesElsewhere(o, o.kind.properties, name);
  }

  // ---------------------------------------------------------------------------
  // Well-formed objects, and structural equality of the copy

  /** A value fits the declared kind of its property. */
  predicate Conforms(p: Property, v: Value)
  {
    match p.kind
    case Primitive => v.Plain?
    case ToOne => v.Link?
    case ToMany => v.ObjectList? || v.ScalarList?
  }

  /** What a fresh instance may hold: no links, and only empty lists. */
  predicate IsBlank(v: Value)
  {
    match v
    case Plain(_) => true
    case Link(_) => false
    case ObjectList(objects) => objects == []
    case ScalarList(scalars) => scalars == []
  }

  /** A class as the store declares it: unique names, and `init()` values that fit the schema. */
  predicate WellFormedKind(k: Kind)
  {
    UniqueNames(k.properties) &&
    k.defaults.Keys <= Names(k.properties) &&
    forall i :: 0 <= i < |k.properties| && k.properties[i].name in k.defaults ==>
      Conforms(k.properties[i], k.defaults[k.properties[i].name]) && IsBlank(k.defaults[k.properties[i].name])
  }

  /** An object as the store hands it out: only declared properties, each fitting its kind, all the way down. */
  predicate WellFormed(o: Object)
    decreases o, 1
  {
    WellFormedKind(o.kind) &&
    o.values.Keys <= Names(o.kind.properties) &&
    (forall i :: 0 <= i < |o.kind.properties| && o.kind.properties[i].name in o.values ==>
      Conforms(o.kind.properties[i], o.values[o.kind.properties[i].name])) &&
    forall name :: name in o.values ==> WellFormedValue(o.values[name])
  }

  predicate WellFormedValue(v: Value)
    decreases v, 0
  {
    match v
    case Link(target) => WellFormed(target)
    case ObjectList(objects) => forall j :: 0 <= j < |objects| ==> WellFormed(objects[j])
    case _ => true
  }

  /**
   * No property is `nil` while a fresh instance would give it a value, all the way down:
   * the objects that a copy leaves exactly as they are.
   */
  predicate Complete(o: Object)
    decreases o, 1
  {
    (forall i :: 0 <= i < |o.kind.properties| && o.kind.properties[i].name !in o.values ==>
      o.kind.properties[i].name !in o.kind.defaults) &&
    forall name :: name in o.values ==> CompleteValue(o.values[name])
  }

  predicate CompleteValue(v: Value)
    decreases v, 0
  {
    match v
    case Link(target) => Complete(target)
    case ObjectList(objects) => forall j :: 0 <= j < |objects| ==> Complete(objects[j])
    case _ => true
  }

  /** A value the schema allows and `init()` may give is already complete. */
  lemma BlankIsComplete(v: Value)
    requires IsBlank(v)
    ensures WellFormedValue(v) && CompleteValue(v)
  {
  }

  /** Detaching a well-formed link or list gives a well-formed, complete value of the same form. */
  lemma {:induction false} DetachedValueSound(v: Value)
    requires WellFormedValue(v) && !v.Plain?
    ensures DetachedValue(v).Some?
    ensures DetachedValue(v).value.Link? == v.Link?
    ensures DetachedValue(v).value.ObjectList? == v.ObjectList?
    ensures DetachedValue(v).value.ScalarList? == v.ScalarList?
    ensures WellFormedValue(DetachedValue(v).value) && CompleteValue(DetachedValue(v).value)
    decreases v, 0
  {
    match v
    case Link(target) =>
      DetachedSound(target);
    case ObjectList(objects) =>
      var copies := DetachAll(objects);
      forall j | 0 <= j < |copies| ensures WellFormed(copies[j]) && Complete(copies[j]) {
        DetachedSound(objects[j]);
      }
    case ScalarList(_) =>
  }

  /** One property of the copy of a well-formed object fits its kind, or is `nil` with no `init()` value. */
  lemma DetachedFieldSound(o: Object, i: nat)
    requires WellFormed(o) && i < |o.kind.properties|
    ensures var p := o.kind.properties[i]; var copy := Get(Detach(o).values, p.name);
      copy.Some? ==> Conforms(p, copy.value) && WellFormedValue(copy.value) && CompleteValue(copy.value)
    ensures var p := o.kind.properties[i];
      p.name !in Detach(o).values ==> p.name !in o.kind.defaults
    decreases o, 0
  {
    var p := o.kind.properties[i];
    DetachField(o, i);
    if p.name in o.values {
      if p.kind != Primitive {
        DetachedValueSound(o.values[p.name]);
      }
    } else if p.name in o.kind.defaults {
      BlankIsComplete(o.kind.defaults[p.name]);
    }
  }

  /** The copy of a well-formed object is well-formed and complete. */
  lemma {:induction false} DetachedSound(o: Object)
    requires WellFormed(o)
    ensures WellFormed(Detach(o)) && Complete(Detach(o))
    decreases o, 1
  {
    var d := Detach(o);
    var properties := o.kind.properties;
    forall name | name in d.values ensures name in Names(properties) {
      if name !in Names(properties) {
        DetachUndeclared(o, name);
      }
    }
    forall i | 0 <= i < |properties|
      ensures properties[i].name in d.values ==>
        Conforms(properties[i], d.values[properties[i].name]) && WellFormedValue(d.values[properties[i].name])
      ensures properties[i].name !in d.values ==> properties[i].name !in o.kind.defaults
    {
      DetachedFieldSound(o, i);
    }
    forall name | name in d.values ensures WellFormedValue(d.values[name]) && CompleteValue(d.values[name]) {
      var i :| 0 <= i < |properties| && properties[i].name == name;
      DetachedFieldSound(o, i);
    }
  }

  /** Two maps that agree on every name are the same map. */
  lemma SameValues(a: map<string, Value>, b: map<string, Value>)
    requires forall name :: Get(a, name) == Get(b, name)
    ensures a == b
  {
    assert a.Keys == b.Keys by {
      forall name ensures name in a <==> name in b {
        assert Get(a, name) == Get(b, name);
      }
    }
    forall name | name in a ensures a[name] == b[name] {
      assert Get(a, name) == Get(b, name);
    }
  }

  /** Detaching a well-formed, complete link or list gives back the same value. */
  lemma {:induction false} DetachedValueFixes(v: Value)
    requires WellFormedValue(v) && CompleteValue(v) && !v.Plain?
    ensures DetachedValue(v) == Some(v)
    decreases v, 0
  {
    match v
    case Link(target) =>
      DetachFixesComplete(target);
    case ObjectList(objects) =>
      forall j | 0 <= j < |objects| ensures DetachAll(objects)[j] == objects[j] {
        DetachFixesComplete(objects[j]);
      }
      assert DetachAll(objects) == objects;
    case ScalarList(_) =>
  }

  /**
   * On a well-formed object, the copy equals the source when no property is `nil`
   * where a fresh instance has a value: structural equality of the copy.
   * `DetachFixesOnlyComplete` gives the converse.
   */
  lemma {:induction false} DetachFixesComplete(o: Object)
    requires WellFormed(o) && Complete(o)
    ensures Detach(o) == o
    decreases o, 1
  {
    var d := Detach(o);
    var properties := o.kind.properties;
    forall name ensures Get(d.values, name) == Get(o.values, name) {
      if name in Names(properties) {
        var i :| 0 <= i < |properties| && properties[i].name == name;
        CopyPropertiesAt(o, properties, i);
        if name in o.values && properties[i].kind != Primitive {
          DetachedValueFixes(o.values[name]);
        }
      } else {
        DetachUndeclared(o, name);
      }
    }
    SameValues(d.values, o.values);
  }

  /** Conversely, a well-formed object the copy leaves as it is must be complete. */
  lemma DetachFixesOnlyComplete(o: Object)
    requires WellFormed(o) && Detach(o) == o
    ensures Complete(o)
  {
    DetachedSound(o);
  }

  /**
   * Detaching a detached object gives a structurally equal object: the copy of a
   * well-formed object is a fixed point of the copy.
   */
  lemma DetachIdempotent(o: Object)
    requires WellFormed(o)
    ensures Detach(Detach(o)) == Detach(o)
  {
    DetachedSound(o);
    DetachFixesComplete(Detach(o));
  }

  /** Detaching a list maps over concatenation, so order is kept piece by piece. */
  lemma DetachAllConcat(xs: seq<Object>, ys: seq<Object>)
    ensures DetachAll(xs + ys) == DetachAll(xs) + DetachAll(ys)
  {
    var all := DetachAll(xs + ys);
    forall j | 0 <= j < |all| ensures all[j] == (DetachAll(xs) + DetachAll(ys))[j] {
      if j >= |xs| {
        assert (xs + ys)[j] == ys[j - |xs|];
      }
    }
  }

  // ---------------------------------------------------------------------------
  // The copy, as the source runs it

  /** `Object.detached()`: a fresh instance, then a loop over the schema in order. */
  method ObjectDetached(o: Object) returns (d: Object)
    ensures d.kind == o.kind
    ensures d == Detach(o)
    decreases o, 2
  {
    d := Object(o.kind, o.kind.defaults);
    var properties := o.kind.properties;
    for i := 0 to |properties|
      invariant d == Object(o.kind, CopyProperties(o, properties[..i]))
    {
      assert properties[..i + 1][..i] == properties[..i];
      var property := properties[i];
      if property.name in o.values {
        var value := o.values[property.name];
        if property.kind == ToMany {
          var detachable := DetachableDetached(value);
          d := d.(values := SetValue(d.values, property.name, detachable));
        } else if property.kind == ToOne {
          var detachable := DetachableDetached(value);
          d := d.(values := SetValue(d.values, property.name, detachable));
        } else {
          d := d.(values := d.values[property.name := value]);
        }
      }
    }
    assert properties[..|properties|] == properties;
  }

  /** `(value as? DetachableObject)?.detached()`, dispatched on what the value is. */
  method DetachableDetached(v: Value) returns (r: Option<Value>)
    ensures r == DetachedValue(v)
    decreases v, 1
  {
    match v
    case Plain(_) =>
      r := None;
    case Link(target) =>
      var copy := ObjectDetached(target);
      r := Some(Link(copy));
    case ObjectList(objects) =>
      var copies := ListDetached(objects);
      r := Some(ObjectList(copies));
    case ScalarList(scalars) =>
      var copies := ScalarListDetached(scalars);
      r := Some(ScalarList(copies));
  }

  /** `List.detached()` for object elements: an empty list, then every element detached and appended. */
  method ListDetached(objects: seq<Object>) returns (result: seq<Object>)
    ensures result == DetachAll(objects)
    decreases objects, 1
  {
    result := [];
    for i := 0 to |objects|
      invariant |result| == i
      invariant forall j :: 0 <= j < i ==> result[j] == Detach(objects[j])
    {
      var copy := ObjectDetached(objects[i]);
      result := result + [copy];
    }
  }

  /** `List.detached()` for primitive elements: an empty list, then every element appended as it is. */
  method ScalarListDetached(scalars: seq<Scalar>) returns (result: seq<Scalar>)
    ensures result == scalars
  {
    result := [];
    for i := 0 to |scalars|
      invariant result == scalars[..i]
    {
      result := result + [scalars[i]];
    }
    assert scalars[..|scalars|] == scalars;
  }
}
