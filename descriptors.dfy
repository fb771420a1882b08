/**
 * The descriptors of 39_descriptors.py. A descriptor is an object held by
 * the owning class; the values it manages live in each instance's own
 * attribute dictionary, modelled as an Instance whose `attrs` map the
 * methods update in place. Access through the class (`obj is None`) is left
 * out.
 */
module Descriptors {
  import opened PyCore

  /** An instance's `__dict__`: attribute name to value. */
  class Instance<T> {
    var attrs: map<string, T>

    constructor (attrs: map<string, T>)
      ensures this.attrs == attrs
    {
      this.attrs := attrs;
    }
  }

  /** `getattr(obj, key, None)` on the instance dictionary. */
  function GetAttr(attrs: map<string, PyValue>, key: string): PyValue
  {
    if key in attrs then attrs[key] else PyNone
  }

  /** The name under which a descriptor called `name` stores its value. */
  function StorageName(name: string): (s: string)
    ensures |s| == |name| + 1 && s[0] == '_' && s[1..] == name
  {
    "_" + name
  }

  /** Different descriptor names never share storage. */
  lemma StorageNameInjective(a: string, b: string)
    requires StorageName(a) == StorageName(b)
    ensures a == b
  {
    assert a == StorageName(a)[1..];
  }

  // ---------------------------------------------------------------- ValidatedDescriptor

  /** The check of ValidatedDescriptor.__set__: an int (a bool is one) that is not negative. */
  predicate NonNegativeInt(value: PyValue)
  {
    IsInt(value) && AsInt(value) >= 0
  }

  class ValidatedDescriptor {
    const name: string
    const storageName: string

    constructor (name: string)
      ensures this.name == name && storageName == StorageName(name)
    {
      this.name := name;
      storageName := StorageName(name);
    }

    /** `__get__`: the stored value, or None before the first successful set. */
    function Get(obj: Instance<PyValue>): PyValue
      reads obj
    {
      GetAttr(obj.attrs, storageName)
    }

    /**
     * `__set__`: stores the value when it is a non-negative int; otherwise a
     * ValueError, and the instance keeps what it had.
     */
    method Set(obj: Instance<PyValue>, value: PyValue) returns (r: Result<()>)
      modifies obj
      ensures r.Ok? <==> NonNegativeInt(value)
      ensures r.Ok? ==> obj.attrs == old(obj.attrs)[storageName := value]
      ensures r.Err? ==> r.error == PyError(ValueError, name + " must be a non-negative integer")
      ensures r.Err? ==> obj.attrs == old(obj.attrs)
    {
      if !NonNegativeInt(value) {
        return Err(PyError(ValueError, name + " must be a non-negative integer"));
      }
      obj.attrs := obj.attrs[storageName := value];
      r := Ok(());
    }
  }

  /** The Product class with its two validated attributes. */
  class ProductType {
    const price: ValidatedDescriptor
    const quantity: ValidatedDescriptor

    constructor ()
      ensures Valid()
    {
      price := new ValidatedDescriptor("price");
      quantity := new ValidatedDescriptor("quantity");
    }

    /** The descriptors are named after the attributes they are assigned to. */
    predicate Valid()
    {
      price.name == "price" && price.storageName == StorageName("price")
      && quantity.name == "quantity" && quantity.storageName == StorageName("quantity")
    }

    /** Product(price, quantity): both assignments go through the descriptors; the first refusal propagates. */
    method New(price: PyValue, quantity: PyValue) returns (obj: Instance<PyValue>, r: Result<()>)
      requires Valid()
      ensures fresh(obj)
      ensures r.Ok? <==> NonNegativeInt(price) && NonNegativeInt(quantity)
      ensures r.Ok? ==> this.price.Get(obj) == price && this.quantity.Get(obj) == quantity
      ensures !NonNegativeInt(price) ==> r == Err(PyError(ValueError, "price" + " must be a non-negative integer"))
      ensures NonNegativeInt(price) && !NonNegativeInt(quantity) ==>
                r == Err(PyError(ValueError, "quantity" + " must be a non-negative integer"))
    {
      obj := new Instance(map[]);
      r := this.price.Set(obj, price);
      if r.Err? {
        return;
      }
      assert this.price.storageName != this.quantity.storageName;
      r := this.quantity.Set(obj, quantity);
    }
  }

  /** The demo: Product(10, 5) holds 10 and 5; `price = -5` is refused and the price stays 10. */
  method ValidatedDemo() returns (price: PyValue, quantity: PyValue, refused: Result<()>, after: PyValue)
    ensures price == PyInt(10) && quantity == PyInt(5)
    ensures refused == Err(PyError(ValueError, "price" + " must be a non-negative integer"))
    ensures after == PyInt(10)
  {
    var product := new ProductType();
    var obj, r := product.New(PyInt(10), PyInt(5));
    price := product.price.Get(obj);
    quantity := product.quantity.Get(obj);
    refused := product.price.Set(obj, PyInt(-5));
    after := product.price.Get(obj);
  }

  /** Before any set the get gives None. */
  method ValidatedUnset() returns (v: PyValue)
    ensures v == PyNone
  {
    var price := new ValidatedDescriptor("price");
    var obj := new Instance<PyValue>(map[]);
    v := price.Get(obj);
  }

  // ---------------------------------------------------------------- CachedProperty

  /**
   * CachedProperty(func): `__get__` computes func on the instance only when
   * the instance has no `_<name>_cached` attribute yet, stores it there and
   * returns the stored value. `evaluations` counts the calls of func.
   */
  class CachedProperty<T> {
    const name: string
    const func: map<string, T> -> T
    var evaluations: nat

    constructor (name: string, func: map<string, T> -> T)
      ensures this.name == name && this.func == func && evaluations == 0
    {
      this.name := name;
      this.func := func;
      evaluations := 0;
    }

    function CacheName(): string
    {
      "_" + name + "_cached"
    }

    method Get(obj: Instance<T>) returns (v: T)
      modifies this, obj
      ensures CacheName() in old(obj.attrs) ==>
                v == old(obj.attrs)[CacheName()] && obj.attrs == old(obj.attrs) && evaluations == old(evaluations)
      ensures CacheName() !in old(obj.attrs) ==>
                v == func(old(obj.attrs)) && obj.attrs == old(obj.attrs)[CacheName() := v] && evaluations == old(evaluations) + 1
    {
      var cacheName := CacheName();
      if cacheName !in obj.attrs {
        var value := func(obj.attrs);
        evaluations := evaluations + 1;
        obj.attrs := obj.attrs[cacheName := value];
      }
      v := obj.attrs[cacheName];
    }
  }

  /** sum(x ** 2 for x in items) over int-like items. */
  function SquareSum(items: seq<PyValue>): int
    requires forall k :: 0 <= k < |items| ==> IsInt(items[k])
  {
    if items == [] then 0 else AsInt(items[0]) * AsInt(items[0]) + SquareSum(items[1..])
  }

  /** DataProcessor.expensive_computation: the sum of the squares of `self.data`. */
  function ExpensiveComputation(attrs: map<string, PyValue>): PyValue
  {
    if "data" in attrs && attrs["data"].PyList? && forall k :: 0 <= k < |attrs["data"].items| ==> IsInt(attrs["data"].items[k])
    then PyInt(SquareSum(attrs["data"].items))
    else PyNone
  }

  /** Two accesses are computed once and give the same value; for [1, 2, 3, 4, 5] it is 55. */
  method CachedPropertyDemo() returns (first: PyValue, second: PyValue, evaluations: nat)
    ensures first == PyInt(55) && second == first
    ensures evaluations == 1
  {
    var property := new CachedProperty("expensive_computation", ExpensiveComputation);
    var processor := new Instance(map["data" := PyList([PyInt(1), PyInt(2), PyInt(3), PyInt(4), PyInt(5)])]);
    assert "data" != property.CacheName();
    first := property.Get(processor);
    second := property.Get(processor);
    evaluations := property.evaluations;
  }

  /** Once a value is cached, any number of further accesses neither evaluate func nor change the instance. */
  method CachedRepeated(property: CachedProperty<PyValue>, obj: Instance<PyValue>, n: nat) returns (values: seq<PyValue>)
    requires property.CacheName() in obj.attrs
    modifies property, obj
    ensures property.CacheName() in obj.attrs
    ensures |values| == n && forall i :: 0 <= i < n ==> values[i] == obj.attrs[property.CacheName()]
    ensures obj.attrs == old(obj.attrs) && property.evaluations == old(property.evaluations)
  {
    values := [];
    var i := 0;
    while i < n
      invariant 0 <= i <= n
      invariant obj.attrs == old(obj.attrs) && property.evaluations == old(property.evaluations)
      invariant |values| == i && forall j :: 0 <= j < i ==> values[j] == obj.attrs[property.CacheName()]
    {
      var v := property.Get(obj);
      values := values + [v];
      i := i + 1;
    }
  }

  // ---------------------------------------------------------------- TypedDescriptor

  /** The two types the lesson's TypedDescriptors expect. */
  datatype PyType = StrType | IntType

  function TypeName(t: PyType): string
  {
    match t
    case StrType => "str"
    case IntType => "int"
  }

  /** `isinstance(value, expected_type)`. */
  predicate HasType(value: PyValue, t: PyType)
  {
    match t
    case StrType => value.PyStr?
    case IntType => IsInt(value)
  }

  /** TypedDescriptor(expected_type), named by `__set_name__` after the attribute it is assigned to. */
  class TypedDescriptor {
    const expectedType: PyType
    const name: string
    const storageName: string

    constructor (expectedType: PyType, name: string)
      ensures this.expectedType == expectedType && this.name == name && storageName == StorageName(name)
    {
      this.expectedType := expectedType;
      this.name := name;
      storageName := StorageName(name);
    }

    function Get(obj: Instance<PyValue>): PyValue
      reads obj
    {
      GetAttr(obj.attrs, storageName)
    }

    /** `__set__`: a TypeError naming the expected type unless the value has it. */
    method Set(obj: Instance<PyValue>, value: PyValue) returns (r: Result<()>)
      modifies obj
      ensures r.Ok? <==> HasType(value, expectedType)
      ensures r.Ok? ==> obj.attrs == old(obj.attrs)[storageName := value]
      ensures r.Err? ==> r.error == PyError(TypeError, name + " must be of type " + TypeName(expectedType))
      ensures r.Err? ==> obj.attrs == old(obj.attrs)
    {
      if !HasType(value, expectedType) {
        return Err(PyError(TypeError, name + " must be of type " + TypeName(expectedType)));
      }
      obj.attrs := obj.attrs[storageName := value];
      r := Ok(());
    }
  }

  /** The demo: Person("Alice", 30); `age = "thirty"` raises TypeError and the age stays 30. */
  method PersonDemo() returns (name: PyValue, age: PyValue, refused: Result<()>, after: PyValue)
    ensures name == PyStr("Alice") && age == PyInt(30)
    ensures refused == Err(PyError(TypeError, "age" + " must be of type " + "int"))
    ensures after == PyInt(30)
  {
    var nameField := new TypedDescriptor(StrType, "name");
    var ageField := new TypedDescriptor(IntType, "age");
    var person := new Instance<PyValue>(map[]);
    var r := nameField.Set(person, PyStr("Alice"));
    r := ageField.Set(person, PyInt(30));
    name := nameField.Get(person);
    age := ageField.Get(person);
    refused := ageField.Set(person, PyStr("thirty"));
    after := ageField.Get(person);
  }

  // ---------------------------------------------------------------- LazyProperty

  /**
   * LazyProperty(func): a non-data descriptor whose `__get__` evaluates func
   * and stores the value on the instance under the property's own name.
   */
  class LazyProperty<T> {
    const name: string
    const func: map<string, T> -> T
    var evaluations: nat

    constructor (name: string, func: map<string, T> -> T)
      ensures this.name == name && this.func == func && evaluations == 0
    {
      this.name := name;
      this.func := func;
      evaluations := 0;
    }

    /** `__get__`: always evaluates, and shadows itself with the value. */
    method Get(obj: Instance<T>) returns (v: T)
      modifies this, obj
      ensures v == func(old(obj.attrs))
      ensures obj.attrs == old(obj.attrs)[name := v]
      ensures evaluations == old(evaluations) + 1
    {
      v := func(obj.attrs);
      evaluations := evaluations + 1;
      obj.attrs := obj.attrs[name := v];
    }
  }

  /**
   * `obj.<name>` for an attribute backed by a LazyProperty: the instance
   * dictionary wins over a non-data descriptor, so `__get__` runs only while
   * the instance has no such attribute.
   */
  method LoadLazy<T>(property: LazyProperty<T>, obj: Instance<T>) returns (v: T)
    modifies property, obj
    ensures property.name in old(obj.attrs) ==>
              v == old(obj.attrs)[property.name] && obj.attrs == old(obj.attrs) && property.evaluations == old(property.evaluations)
    ensures property.name !in old(obj.attrs) ==>
              v == property.func(old(obj.attrs)) && obj.attrs == old(obj.attrs)[property.name := v]
              && property.evaluations == old(property.evaluations) + 1
  {
    if property.name in obj.attrs {
      return obj.attrs[property.name];
    }
    v := property.Get(obj);
  }

  /** What a Resource instance holds: its config file name and, once loaded, its config. */
  datatype ResourceValue = Path(path: string) | Config(settings: Dict<string, PyValue>)

  /** Resource.config: the settings it loads. */
  function LoadConfig(attrs: map<string, ResourceValue>): ResourceValue
  {
    Config([("key", PyStr("value")), ("setting", PyBool(true))])
  }

  /** The demo: the config is loaded on the first access only, and both accesses give the same settings. */
  method LazyPropertyDemo() returns (first: ResourceValue, second: ResourceValue, evaluations: nat)
    ensures first == second == Config([("key", PyStr("value")), ("setting", PyBool(true))])
    ensures evaluations == 1
  {
    var property := new LazyProperty("config", LoadConfig);
    var resource := new Instance(map["config_file" := Path("config.json")]);
    first := LoadLazy(property, resource);
    second := LoadLazy(property, resource);
    evaluations := property.evaluations;
  }

  // ---------------------------------------------------------------- ObservableDescriptor

  /** A registered observer; the lesson registers only `notify`. */
  datatype Callback = Notify

  /** What `notify(obj, attr_name, old_value, new_value)` prints. */
  function Call(callback: Callback, attrName: string, oldValue: PyValue, newValue: PyValue): string
  {
    attrName + " changed from " + Str(oldValue) + " to " + Str(newValue)
  }

  class ObservableDescriptor {
    const name: string
    const storageName: string
    var observers: seq<Callback>

    constructor (name: string)
      ensures this.name == name && storageName == StorageName(name) && observers == []
    {
      this.name := name;
      storageName := StorageName(name);
      observers := [];
    }

    function Get(obj: Instance<PyValue>): PyValue
      reads obj
    {
      GetAttr(obj.attrs, storageName)
    }

    /** add_observer(callback): appended to the descriptor's own list. */
    method AddObserver(callback: Callback)
      modifies this
      ensures observers == old(observers) + [callback]
    {
      observers := observers + [callback];
    }

    /**
     * `__set__`: stores the value, then calls every observer in order with
     * the old and new value, but only when they differ (`!=`); the lines
     * are what the calls print.
     */
    method Set(obj: Instance<PyValue>, value: PyValue) returns (lines: seq<string>)
      modifies obj
      ensures obj.attrs == old(obj.attrs)[storageName := value]
      ensures PyEq(old(Get(obj)), value) ==> lines == []
      ensures !PyEq(old(Get(obj)), value) ==>
                |lines| == |observers| && forall i :: 0 <= i < |observers| ==> lines[i] == Call(observers[i], name, old(Get(obj)), value)
    {
      var oldValue := GetAttr(obj.attrs, storageName);
      obj.attrs := obj.attrs[storageName := value];
      lines := [];
      if !PyEq(oldValue, value) {
        var i := 0;
        while i < |observers|
          invariant 0 <= i <= |observers|
          invariant |lines| == i && forall j :: 0 <= j < i ==> lines[j] == Call(observers[j], name, oldValue, value)
        {
          lines := lines + [Call(observers[i], name, oldValue, value)];
          i := i + 1;
        }
      }
    }
  }

  /** The ObservableModel class: its `price` descriptor is shared by all its instances. */
  class ObservableModelType {
    const price: ObservableDescriptor

    constructor ()
      ensures fresh(price) && price.name == "price" && price.storageName == StorageName("price") && price.observers == []
    {
      price := new ObservableDescriptor("price");
    }

    /** ObservableModel(): every construction registers `notify` once more on the shared descriptor. */
    method New() returns (obj: Instance<PyValue>)
      modifies price
      ensures fresh(obj) && obj.attrs == map[]
      ensures price.observers == old(price.observers) + [Notify]
    {
      obj := new Instance(map[]);
      price.AddObserver(Notify);
    }
  }

  /** The demo: from None to 10 and from 10 to 20, each reported once by the one observer. */
  method ObservableDemo() returns (first: seq<string>, second: seq<string>)
    ensures first == ["price" + " changed from " + "None" + " to " + "10"]
    ensures second == ["price" + " changed from " + "10" + " to " + "20"]
  {
    var modelType := new ObservableModelType();
    var model := modelType.New();
    assert NatToString(1) == "1" && NatToString(2) == "2";
    assert Str(PyInt(10)) == "10" && Str(PyInt(20)) == "20";
    first := modelType.price.Set(model, PyInt(10));
    second := modelType.price.Set(model, PyInt(20));
  }

  /** Setting the value it already has notifies nobody, however many observers there are. */
  method ObservableUnchanged(modelType: ObservableModelType, model: Instance<PyValue>, value: PyValue) returns (lines: seq<string>)
    requires PyEq(modelType.price.Get(model), value)
    modifies model
    ensures lines == []
  {
    lines := modelType.price.Set(model, value);
  }

  /** Two constructions register the observer twice, so a change is reported twice. */
  method ObservableTwoModels() returns (lines: seq<string>)
    ensures |lines| == 2
  {
    var modelType := new ObservableModelType();
    var a := modelType.New();
    var b := modelType.New();
    lines := modelType.price.Set(a, PyInt(10));
  }

  // ---------------------------------------------------------------- NamedDescriptor

  /** NamedDescriptor: `__set_name__` records the owner's and the attribute's name. */
  class NamedDescriptor {
    const owner: string
    const name: string
    const storageName: string

    constructor (owner: string, name: string)
      ensures this.owner == owner && this.name == name && storageName == StorageName(name)
    {
      this.owner := owner;
      this.name := name;
      storageName := StorageName(name);
    }

    function Get(obj: Instance<PyValue>): PyValue
      reads obj
    {
      GetAttr(obj.attrs, storageName)
    }

    /** `__set__`: stores without any check. */
    method Set(obj: Instance<PyValue>, value: PyValue)
      modifies obj
      ensures obj.attrs == old(obj.attrs)[storageName := value]
    {
      obj.attrs := obj.attrs[storageName := value];
    }
  }

  /** The demo: `attr1 = "value1"` is read back; attr2, never set, is None. */
  method NamedDemo() returns (attr1: PyValue, attr2: PyValue)
    ensures attr1 == PyStr("value1") && attr2 == PyNone
  {
    var d1 := new NamedDescriptor("NamedClass", "attr1");
    var d2 := new NamedDescriptor("NamedClass", "attr2");
    var obj := new Instance<PyValue>(map[]);
    d1.Set(obj, PyStr("value1"));
    attr1 := d1.Get(obj);
    assert d1.storageName != d2.storageName;
    attr2 := d2.Get(obj);
  }
}
