/**
 * The class-creation logic of the metaclasses in 38_metaclasses.py, on the
 * class namespace: the insertion-ordered dict of attribute names to values
 * that `__new__` receives. The `type()` call, LoggingMeta and the printing
 * metaclasses are left out.
 */
module Metaclasses {
  import opened PyCore

  /** What a class body binds a name to. */
  datatype AttrValue =
    | Method(name: string)
    | Plain(value: PyValue)
    | FieldOf(fieldType: string)
    | FieldMap(fields: Dict<string, AttrValue>)

  type Namespace = Dict<string, AttrValue>

  /** `s.startswith(prefix)`. */
  predicate StartsWith(s: string, prefix: string)
  {
    |prefix| <= |s| && s[..|prefix|] == prefix
  }

  // ---------------------------------------------------------------- MyMeta

  /** The new name MyMeta gives an attribute when prefixing is on. */
  function RenameKey(key: string): string
  {
    if StartsWith(key, "method_") then "prefixed_" + key else key
  }

  /** The prefixed namespace: every item put into a new dict under its renamed key, in order. */
  function Renamed(attrs: Namespace): Namespace
  {
    Update([], seq(|attrs|, i requires 0 <= i < |attrs| => (RenameKey(attrs[i].0), attrs[i].1)))
  }

  /**
   * MyMeta.__new__ and __init__: with an "add_prefix" attribute the
   * namespace is rebuilt with every "method_" name prefixed by "prefixed_";
   * without one it is used as it is. The created class then gets
   * `_meta_created = True`.
   */
  method MyMetaCreate(attrs: Namespace) returns (created: Namespace)
    ensures HasKey(attrs, "add_prefix") ==> created == Put(Renamed(attrs), "_meta_created", Plain(PyBool(true)))
    ensures !HasKey(attrs, "add_prefix") ==> created == Put(attrs, "_meta_created", Plain(PyBool(true)))
  {
    var namespace := attrs;
    if Get(attrs, "add_prefix").Some? {
      var items := seq(|attrs|, i requires 0 <= i < |attrs| => (RenameKey(attrs[i].0), attrs[i].1));
      var newAttrs: Namespace := [];
      var i := 0;
      while i < |attrs|
        invariant 0 <= i <= |attrs|
        invariant newAttrs == Update([], items[..i])
      {
        var key := attrs[i].0;
        var value := attrs[i].1;
        assert items[..i + 1] == items[..i] + [(RenameKey(key), value)];
        UpdateSnoc([], items[..i], RenameKey(key), value);
        if StartsWith(key, "method_") {
          newAttrs := Put(newAttrs, "prefixed_" + key, value);
        } else {
          newAttrs := Put(newAttrs, key, value);
        }
        i := i + 1;
      }
      assert items[..|attrs|] == items;
      namespace := newAttrs;
    }
    created := Put(namespace, "_meta_created", Plain(PyBool(true)));
  }

  /** On a name that does not start with "prefixed_", the renamed name does exactly when the name is a "method_" one. */
  lemma RenamedPrefix(a: string)
    requires !StartsWith(a, "prefixed_")
    ensures StartsWith(RenameKey(a), "prefixed_") <==> StartsWith(a, "method_")
  {
    if StartsWith(a, "method_") {
      assert RenameKey(a)[..9] == "prefixed_";
    }
  }

  /** No "method_" name is a "prefixed_" name, so the renaming is one-to-one on such a namespace. */
  lemma RenameKeyInjective(a: string, b: string)
    requires !StartsWith(a, "prefixed_") && !StartsWith(b, "prefixed_")
    requires RenameKey(a) == RenameKey(b)
    ensures a == b
  {
    RenamedPrefix(a);
    RenamedPrefix(b);
    if StartsWith(a, "method_") {
      assert a == RenameKey(a)[9..];
      assert b == RenameKey(b)[9..];
    }
  }

  /**
   * With prefixing on, each attribute is found under its renamed key with its
   * value (a "method_" name under "prefixed_" + name, any other name under
   * itself), provided no name already started with "prefixed_".
   */
  lemma RenamedKeeps(attrs: Namespace, i: int)
    requires UniqueKeys(attrs)
    requires forall k :: 0 <= k < |attrs| ==> !StartsWith(attrs[k].0, "prefixed_")
    requires 0 <= i < |attrs|
    ensures Get(Renamed(attrs), RenameKey(attrs[i].0)) == Some(attrs[i].1)
  {
    var items := seq(|attrs|, j requires 0 <= j < |attrs| => (RenameKey(attrs[j].0), attrs[j].1));
    assert UniqueKeys(items) by {
      forall a, b | 0 <= a < b < |items|
        ensures items[a].0 != items[b].0
      {
        if items[a].0 == items[b].0 {
          RenameKeyInjective(attrs[a].0, attrs[b].0);
        }
      }
    }
    UpdateGet([], items, RenameKey(attrs[i].0));
    assert items[i] == (RenameKey(attrs[i].0), attrs[i].1);
    assert HasKey(items, RenameKey(attrs[i].0));
    var r := Get(items, RenameKey(attrs[i].0));
    var k :| 0 <= k < |items| && items[k] == (RenameKey(attrs[i].0), r.value);
    assert k == i;
  }

  /** The demo: MyClass has no "add_prefix", so method_test keeps its name, and `_meta_created` is set. */
  method MyMetaDemo() returns (created: Namespace)
    ensures created == [("method_test", Method("method_test")), ("_meta_created", Plain(PyBool(true)))]
  {
    var attrs := [("method_test", Method("method_test"))];
    assert !HasKey(attrs, "add_prefix");
    created := MyMetaCreate(attrs);
  }

  // ---------------------------------------------------------------- SingletonMeta

  /** An instance of a class whose `__init__` stores one value. */
  class Instance {
    var value: PyValue

    constructor (value: PyValue)
      ensures this.value == value
    {
      this.value := value;
    }
  }

  /** SingletonMeta with its shared `_instances` dict, keyed here by class name. */
  class SingletonMeta {
    var instances: map<string, Instance>

    constructor ()
      ensures instances == map[]
    {
      instances := map[];
    }

    /** `__call__`: the first call per class builds the instance; later calls return it and ignore their arguments. */
    method Call(cls: string, value: PyValue) returns (obj: Instance)
      modifies this
      ensures cls in old(instances) ==> obj == old(instances)[cls] && instances == old(instances)
      ensures cls !in old(instances) ==> fresh(obj) && obj.value == value && instances == old(instances)[cls := obj]
    {
      if cls !in instances {
        var created := new Instance(value);
        instances := instances[cls := created];
      }
      obj := instances[cls];
    }
  }

  /** The demo: `s1 is s2`, and `s2.value` is "first". */
  method SingletonDemo() returns (same: bool, value: PyValue)
    ensures same && value == PyStr("first")
  {
    var meta := new SingletonMeta();
    var s1 := meta.Call("Singleton", PyStr("first"));
    var s2 := meta.Call("Singleton", PyStr("second"));
    same := s1 == s2;
    value := s2.value;
  }

  // ---------------------------------------------------------------- RegistryMeta

  /**
   * `getattr(cls, key)` / `hasattr(cls, key)` on a class: its own namespace,
   * then the namespaces of its bases in method resolution order (`mro`, the
   * class itself excluded); the first that binds the key gives the value.
   */
  function ClassLookup(attrs: Namespace, mro: seq<Namespace>, key: string): (r: Option<AttrValue>)
    ensures r.Some? <==> HasKey(attrs, key) || exists j :: 0 <= j < |mro| && HasKey(mro[j], key)
    ensures HasKey(attrs, key) ==> r == Get(attrs, key)
    ensures !HasKey(attrs, key) && r.Some? ==>
              exists j :: 0 <= j < |mro| && r == Get(mro[j], key) && forall i :: 0 <= i < j ==> !HasKey(mro[i], key)
    decreases |mro|
  {
    if HasKey(attrs, key) then Get(attrs, key)
    else if mro == [] then None
    else
      var r := ClassLookup(mro[0], mro[1..], key);
      assert forall j :: 0 <= j < |mro| - 1 ==> mro[1..][j] == mro[j + 1];
      r
  }

  /** RegistryMeta with its shared `registry`: registry_key value to class name, in registration order. */
  class RegistryMeta {
    var registry: Dict<AttrValue, string>

    constructor ()
      ensures registry == []
    {
      registry := [];
    }

    /**
     * `__new__`: a class that has a `registry_key` attribute, its own or
     * inherited through `mro`, is recorded under that key, replacing an
     * earlier class with the same key.
     */
    method New(name: string, attrs: Namespace, mro: seq<Namespace>) returns (created: Namespace)
      modifies this
      ensures created == attrs
      ensures ClassLookup(attrs, mro, "registry_key").Some? ==>
                registry == Put(old(registry), ClassLookup(attrs, mro, "registry_key").value, name)
      ensures ClassLookup(attrs, mro, "registry_key").None? ==> registry == old(registry)
    {
      created := attrs;
      var key := ClassLookup(attrs, mro, "registry_key");
      if key.Some? {
        registry := Put(registry, key.value, name);
      }
    }
  }

  /**
   * The demo: PluginA and PluginB are registered under "plugin_a" and
   * "plugin_b", in that order; a subclass of PluginA with no key of its own
   * inherits "plugin_a" and takes that entry over.
   */
  method RegistryDemo() returns (registry: Dict<AttrValue, string>, withSubclass: Dict<AttrValue, string>)
    ensures registry == [(Plain(PyStr("plugin_a")), "PluginA"), (Plain(PyStr("plugin_b")), "PluginB")]
    ensures withSubclass == [(Plain(PyStr("plugin_a")), "PluginC"), (Plain(PyStr("plugin_b")), "PluginB")]
  {
    var meta := new RegistryMeta();
    var attrsA := [("registry_key", Plain(PyStr("plugin_a")))];
    var attrsB := [("registry_key", Plain(PyStr("plugin_b")))];
    assert attrsA[0].0 == "registry_key" && attrsB[0].0 == "registry_key";
    var a := meta.New("PluginA", attrsA, []);
    assert meta.registry == [(Plain(PyStr("plugin_a")), "PluginA")];
    assert Plain(PyStr("plugin_a")) != Plain(PyStr("plugin_b"));
    var b := meta.New("PluginB", attrsB, []);
    registry := meta.registry;
    assert ClassLookup([], [attrsA], "registry_key") == Some(Plain(PyStr("plugin_a")));
    var c := meta.New("PluginC", [], [attrsA]);
    withSubclass := meta.registry;
  }

  /** A later class with the same key takes the entry over; other entries are untouched. */
  lemma RegistryOverwrite(registry: Dict<AttrValue, string>, key: AttrValue, first: string, second: string, other: AttrValue)
    ensures Get(Put(Put(registry, key, first), key, second), key) == Some(second)
    ensures other != key ==> Get(Put(Put(registry, key, first), key, second), other) == Get(registry, other)
  {
    PutGet(Put(registry, key, first), key, second, other);
    PutGet(registry, key, first, other);
  }

  // ---------------------------------------------------------------- ValidatedMeta

  const RequiredAttrs: seq<string> := ["required_method", "required_field"]

  /**
   * ValidatedMeta.__new__: a TypeError naming the first of required_method
   * and required_field the namespace lacks; otherwise the class is created.
   */
  function ValidatedNew(name: string, attrs: Namespace): (r: Result<Namespace>)
    ensures r.Ok? <==> HasKey(attrs, "required_method") && HasKey(attrs, "required_field")
    ensures r.Ok? ==> r.value == attrs
    ensures !HasKey(attrs, "required_method") ==> r == Err(PyError(TypeError, name + " must define " + "required_method"))
    ensures HasKey(attrs, "required_method") && !HasKey(attrs, "required_field") ==>
              r == Err(PyError(TypeError, name + " must define " + "required_field"))
  {
    if Get(attrs, RequiredAttrs[0]).None? then Err(PyError(TypeError, name + " must define " + RequiredAttrs[0]))
    else if Get(attrs, RequiredAttrs[1]).None? then Err(PyError(TypeError, name + " must define " + RequiredAttrs[1]))
    else Ok(attrs)
  }

  /** The demo: the empty InvalidClass fails on required_method; ValidClass is created. */
  lemma ValidatedDemo()
    ensures ValidatedNew("InvalidClass", []) == Err(PyError(TypeError, "InvalidClass" + " must define " + "required_method"))
    ensures ValidatedNew("ValidClass", [("required_method", Method("required_method")), ("required_field", Plain(PyStr("value")))]).Ok?
  {
    var attrs := [("required_method", Method("required_method")), ("required_field", Plain(PyStr("value")))];
    assert attrs[0].0 == "required_method" && attrs[1].0 == "required_field";
  }

  // ---------------------------------------------------------------- BaseMeta and DerivedMeta

  /** BaseMeta.__new__: `_meta_tag` set to "base". */
  function BaseMetaNew(attrs: Namespace): Namespace
  {
    Put(attrs, "_meta_tag", Plain(PyStr("base")))
  }

  /** DerivedMeta.__new__: `_meta_tag` set to "derived", then BaseMeta.__new__ through super(). */
  function DerivedMetaNew(attrs: Namespace): Namespace
  {
    BaseMetaNew(Put(attrs, "_meta_tag", Plain(PyStr("derived"))))
  }

  /** Putting a key twice leaves what putting the second value once would. */
  lemma {:induction false} PutPut<K, V>(d: Dict<K, V>, key: K, v1: V, v2: V)
    ensures Put(Put(d, key, v1), key, v2) == Put(d, key, v2)
  {
    if d != [] && d[0].0 != key {
      PutPut(d[1..], key, v1, v2);
      assert Put(d, key, v1)[1..] == Put(d[1..], key, v1);
    }
  }

  /** The base assignment runs last, so a DerivedMeta class is tagged "base" exactly as a BaseMeta one. */
  lemma DerivedIsTaggedBase(attrs: Namespace)
    ensures DerivedMetaNew(attrs) == BaseMetaNew(attrs)
    ensures Get(DerivedMetaNew(attrs), "_meta_tag") == Some(Plain(PyStr("base")))
  {
    PutPut(attrs, "_meta_tag", Plain(PyStr("derived")), Plain(PyStr("base")));
    PutGet(attrs, "_meta_tag", Plain(PyStr("base")), "_meta_tag");
  }

  // ---------------------------------------------------------------- ModelMeta

  /** The Field-valued attributes, in namespace order. */
  function Fields(attrs: Namespace): Namespace
  {
    if attrs == [] then []
    else if attrs[0].1.FieldOf? then [attrs[0]] + Fields(attrs[1..])
    else Fields(attrs[1..])
  }

  /** `attrs.get('table_name', name.lower())`. */
  function TableName(name: string, attrs: Namespace): AttrValue
  {
    match Get(attrs, "table_name")
    case Some(v) => v
    case None => Plain(PyStr(Lower(name)))
  }

  /** ModelMeta.__new__: the namespace with `_fields` and `_table_name` added. */
  function ModelMetaNew(name: string, attrs: Namespace): Namespace
  {
    Put(Put(attrs, "_fields", FieldMap(Fields(attrs))), "_table_name", TableName(name, attrs))
  }

  /** `_fields` holds exactly the Field-valued attributes. */
  lemma {:induction false} FieldsExactly(attrs: Namespace)
    ensures forall item :: item in Fields(attrs) <==> item in attrs && item.1.FieldOf?
    ensures |Fields(attrs)| <= |attrs|
  {
    if attrs != [] {
      FieldsExactly(attrs[1..]);
      assert attrs == [attrs[0]] + attrs[1..];
    }
  }

  /** The created class has its fields and its table name: the given table_name, else the lower-cased class name. */
  lemma ModelMetaAttributes(name: string, attrs: Namespace)
    ensures Get(ModelMetaNew(name, attrs), "_fields") == Some(FieldMap(Fields(attrs)))
    ensures Get(ModelMetaNew(name, attrs), "_table_name") ==
              if HasKey(attrs, "table_name") then Get(attrs, "table_name") else Some(Plain(PyStr(Lower(name))))
  {
    var withFields := Put(attrs, "_fields", FieldMap(Fields(attrs)));
    PutGet(withFields, "_table_name", TableName(name, attrs), "_fields");
    PutGet(attrs, "_fields", FieldMap(Fields(attrs)), "_fields");
  }

  /** The demo: User gets table "users" and the fields name and age, in that order. */
  lemma UserDemo()
    ensures TableName("User", [("table_name", Plain(PyStr("users"))), ("name", FieldOf("str")), ("age", FieldOf("int"))])
         == Plain(PyStr("users"))
    ensures Keys(Fields([("table_name", Plain(PyStr("users"))), ("name", FieldOf("str")), ("age", FieldOf("int"))]))
         == ["name", "age"]
  {
    var attrs := [("table_name", Plain(PyStr("users"))), ("name", FieldOf("str")), ("age", FieldOf("int"))];
    assert attrs[1..] == [("name", FieldOf("str")), ("age", FieldOf("int"))];
    assert Fields(attrs) == [("name", FieldOf("str")), ("age", FieldOf("int"))];
  }

  /** Without a table_name the lower-cased class name is used: the base Model maps to "model". */
  lemma ModelDemo()
    ensures TableName("Model", []) == Plain(PyStr("model"))
  {
    assert Lower("Model")[0] == 'm';
    assert Lower("Model") == "model";
  }
}
