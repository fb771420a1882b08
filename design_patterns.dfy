/**
 * The patterns of 40_design_patterns.py whose objects hold state or whose
 * results are computed: singleton, factory, observer, the strategy-paying
 * shopping cart, the component decorators, the remote control, the
 * two-state context, the computer builder and the lazy proxy. What the
 * observers and states print is returned as lines of text.
 */
module DesignPatterns {
  import opened PyCore
  import Recursion

  // ---------------------------------------------------------------- singleton

  /** An instance of Singleton. */
  class Singleton {
    constructor ()
    {
    }
  }

  /** The class object of Singleton, whose `_instance` attribute starts as None. */
  class SingletonClass {
    var instance: Singleton?

    constructor ()
      ensures instance == null
    {
      instance := null;
    }

    /** `Singleton()`: `__new__` creates the instance on the first call and returns it from then on. */
    method New() returns (s: Singleton)
      modifies this
      ensures old(instance) != null ==> s == old(instance)
      ensures old(instance) == null ==> fresh(s)
      ensures instance == s
    {
      if instance == null {
        instance := new Singleton();
      }
      s := instance;
    }
  }

  /** The demo: `s1 is s2`. */
  method SingletonDemo() returns (same: bool)
    ensures same
  {
    var cls := new SingletonClass();
    var s1 := cls.New();
    var s2 := cls.New();
    same := s1 == s2;
  }

  // ---------------------------------------------------------------- factory

  datatype Animal = Dog | Cat

  function Speak(a: Animal): string
  {
    match a
    case Dog => "Woof!"
    case Cat => "Meow!"
  }

  /** AnimalFactory.create_animal(animal_type): the lower-cased name looked up in {"dog", "cat"}. */
  function CreateAnimal(animalType: string): (r: Result<Animal>)
    ensures r == Ok(Dog) <==> Lower(animalType) == "dog"
    ensures r == Ok(Cat) <==> Lower(animalType) == "cat"
    ensures r.Err? <==> Lower(animalType) != "dog" && Lower(animalType) != "cat"
    ensures r.Err? ==> r.error == PyError(ValueError, "Unknown animal type: " + animalType)
  {
    var animals: Dict<string, Animal> := [("dog", Dog), ("cat", Cat)];
    match Get(animals, Lower(animalType))
    case Some(animalClass) => Ok(animalClass)
    case None => Err(PyError(ValueError, "Unknown animal type: " + animalType))
  }

  /** Names that differ only in letter case make the same animal. */
  lemma CreateAnimalIgnoresCase(a: string, b: string)
    requires Lower(a) == Lower(b)
    ensures CreateAnimal(a).Ok? <==> CreateAnimal(b).Ok?
    ensures CreateAnimal(a).Ok? ==> CreateAnimal(a) == CreateAnimal(b)
  {
  }

  lemma CreateAnimalDemo()
    ensures CreateAnimal("dog") == Ok(Dog) && Speak(CreateAnimal("dog").value) == "Woof!"
    ensures CreateAnimal("CAT") == Ok(Cat) && Speak(CreateAnimal("CAT").value) == "Meow!"
    ensures CreateAnimal("bird").Err?
  {
    assert Lower("CAT") == "cat";
    assert Lower("bird") != "dog" && Lower("bird") != "cat" by {
      assert Lower("bird")[0] == 'b';
    }
  }

  // ---------------------------------------------------------------- observer

  /** ConcreteObserver: its `update` prints one line with its name and the state. */
  class ConcreteObserver {
    const name: string

    constructor (name: string)
      ensures this.name == name
    {
      this.name := name;
    }

    function UpdateLine(state: PyValue): string
    {
      name + " received update: " + Str(state)
    }
  }

  /** The lines `update` prints for each observer in turn. */
  function NotifyLines(observers: seq<ConcreteObserver>, state: PyValue): (lines: seq<string>)
    ensures |lines| == |observers|
    ensures forall i :: 0 <= i < |observers| ==> lines[i] == observers[i].UpdateLine(state)
  {
    seq(|observers|, i requires 0 <= i < |observers| => observers[i].UpdateLine(state))
  }

  /** The index of the first occurrence of x. */
  function IndexOf<T(==)>(xs: seq<T>, x: T): (i: nat)
    requires x in xs
    ensures i < |xs| && xs[i] == x
    ensures forall j :: 0 <= j < i ==> xs[j] != x
  {
    if xs[0] == x then 0 else 1 + IndexOf(xs[1..], x)
  }

  /** `list.remove(x)` for an x in the list: its first occurrence is taken out. */
  function RemoveFirst<T(==)>(xs: seq<T>, x: T): (r: seq<T>)
    requires x in xs
  {
    var i := IndexOf(xs, x);
    xs[..i] + xs[i + 1..]
  }

  /** Removing takes out one copy of x and keeps every other element, in order. */
  lemma RemoveFirstSpec<T>(xs: seq<T>, x: T)
    requires x in xs
    ensures |RemoveFirst(xs, x)| == |xs| - 1
    ensures multiset(RemoveFirst(xs, x)) == multiset(xs) - multiset{x}
    ensures forall j :: 0 <= j < IndexOf(xs, x) ==> RemoveFirst(xs, x)[j] == xs[j]
    ensures forall j :: IndexOf(xs, x) <= j < |xs| - 1 ==> RemoveFirst(xs, x)[j] == xs[j + 1]
  {
    var i := IndexOf(xs, x);
    var r := xs[..i] + xs[i + 1..];
    assert RemoveFirst(xs, x) == r;
    RemoveAtMultiset(xs, i);
    forall j | 0 <= j < i
      ensures r[j] == xs[j]
    {
      assert r[j] == xs[..i][j];
    }
    forall j | i <= j < |xs| - 1
      ensures r[j] == xs[j + 1]
    {
      assert r[j] == xs[i + 1..][j - i];
    }
  }

  lemma RemoveAtMultiset<T>(xs: seq<T>, i: nat)
    requires i < |xs|
    ensures multiset(xs[..i] + xs[i + 1..]) == multiset(xs) - multiset{xs[i]}
  {
    assert xs == xs[..i] + [xs[i]] + xs[i + 1..];
    assert multiset(xs) == multiset(xs[..i]) + multiset{xs[i]} + multiset(xs[i + 1..]);
  }

  /** Detaching an observer that was attached last, and only then, restores the list. */
  lemma AttachThenDetach<T>(xs: seq<T>, x: T)
    requires x !in xs
    ensures x in xs + [x] && RemoveFirst(xs + [x], x) == xs
  {
    assert (xs + [x])[|xs|] == x;
    assert IndexOf(xs + [x], x) == |xs| by {
      assert forall j :: 0 <= j < |xs| ==> (xs + [x])[j] != x;
    }
    assert (xs + [x])[..|xs|] == xs;
  }

  /** The observer Subject: a list of observers and the current state, initially None. */
  class Subject {
    var observers: seq<ConcreteObserver>
    var state: PyValue

    constructor ()
      ensures observers == [] && state == PyNone
    {
      observers := [];
      state := PyNone;
    }

    /** attach(observer): appended, even if already attached. */
    method Attach(observer: ConcreteObserver)
      modifies this
      ensures observers == old(observers) + [observer] && state == old(state)
    {
      observers := observers + [observer];
    }

    /** detach(observer): the first occurrence is removed; an absent observer raises ValueError. */
    method Detach(observer: ConcreteObserver) returns (r: Result<()>)
      modifies this
      ensures r.Err? <==> observer !in old(observers)
      ensures r.Err? ==> r.error.kind == ValueError && observers == old(observers)
      ensures r.Ok? ==> observers == RemoveFirst(old(observers), observer)
      ensures state == old(state)
    {
      if observer !in observers {
        return Err(PyError(ValueError, "list.remove(x): x not in list"));
      }
      observers := RemoveFirst(observers, observer);
      r := Ok(());
    }

    /** notify(): every attached observer gets `update(state)`, in attachment order. */
    method Notify() returns (lines: seq<string>)
      ensures lines == NotifyLines(observers, state)
    {
      lines := [];
      var i := 0;
      while i < |observers|
        invariant 0 <= i <= |observers|
        invariant lines == NotifyLines(observers[..i], state)
      {
        lines := lines + [observers[i].UpdateLine(state)];
        assert observers[..i + 1] == observers[..i] + [observers[i]];
        i := i + 1;
      }
      assert observers[..i] == observers;
    }

    /** set_state(state): the state is stored first, then everyone is notified of it. */
    method SetState(newState: PyValue) returns (lines: seq<string>)
      modifies this
      ensures state == newState && observers == old(observers)
      ensures lines == NotifyLines(observers, newState)
    {
      state := newState;
      lines := Notify();
    }
  }

  /** The demo: two observers attached, then the state "New State"; each line is printed in attachment order. */
  method ObserverDemo() returns (lines: seq<string>)
    ensures lines == ["Observer 1" + " received update: " + "New State", "Observer 2" + " received update: " + "New State"]
  {
    var subject := new Subject();
    var observer1 := new ConcreteObserver("Observer 1");
    var observer2 := new ConcreteObserver("Observer 2");
    subject.Attach(observer1);
    subject.Attach(observer2);
    lines := subject.SetState(PyStr("New State"));
    assert subject.observers == [observer1, observer2];
  }

  // ---------------------------------------------------------------- strategy

  datatype PaymentStrategy = CreditCardPayment | PayPalPayment | BitcoinPayment

  /** pay(amount) of each strategy. */
  function Pay(strategy: PaymentStrategy, amount: int): string
  {
    var via := match strategy
      case CreditCardPayment => "Credit Card"
      case PayPalPayment => "PayPal"
      case BitcoinPayment => "Bitcoin";
    "Paid $" + IntToString(amount) + " using " + via
  }

  /** `sum(price for _, price in items)`. */
  function Total(items: seq<(string, int)>): (t: int)
    ensures t == Recursion.SumList(seq(|items|, i requires 0 <= i < |items| => items[i].1))
  {
    var prices := seq(|items|, i requires 0 <= i < |items| => items[i].1);
    if items == [] then 0
    else
      assert prices[1..] == seq(|items[1..]|, i requires 0 <= i < |items[1..]| => items[1..][i].1);
      items[0].1 + Total(items[1..])
  }

  /** Adding an item adds its price to the total. */
  lemma {:induction false} TotalSnoc(items: seq<(string, int)>, item: string, price: int)
    ensures Total(items + [(item, price)]) == Total(items) + price
  {
    if items == [] {
      assert items + [(item, price)] == [(item, price)];
    } else {
      assert (items + [(item, price)])[1..] == items[1..] + [(item, price)];
      TotalSnoc(items[1..], item, price);
    }
  }

  class ShoppingCart {
    const paymentStrategy: PaymentStrategy
    var items: seq<(string, int)>

    constructor (paymentStrategy: PaymentStrategy)
      ensures this.paymentStrategy == paymentStrategy && items == []
    {
      this.paymentStrategy := paymentStrategy;
      items := [];
    }

    /** add_item(item, price): appended to the items. */
    method AddItem(item: string, price: int)
      modifies this
      ensures items == old(items) + [(item, price)]
      ensures Total(items) == Total(old(items)) + price
    {
      TotalSnoc(items, item, price);
      items := items + [(item, price)];
    }

    /** checkout(): the strategy pays the total of the prices. */
    function Checkout(): string
      reads this
    {
      Pay(paymentStrategy, Total(items))
    }
  }

  /** The demo: a Book for 20 and a Pen for 5, paid by credit card. */
  method ShoppingCartDemo() returns (receipt: string)
    ensures receipt == "Paid $25 using Credit Card"
  {
    var cart := new ShoppingCart(CreditCardPayment);
    cart.AddItem("Book", 20);
    cart.AddItem("Pen", 5);
    receipt := cart.Checkout();
    PayDemo();
  }

  lemma PayDemo()
    ensures Pay(CreditCardPayment, 25) == "Paid $25 using Credit Card"
  {
    assert NatToString(2) == "2";
    assert IntToString(25) == "25";
  }

  // ---------------------------------------------------------------- decorator

  /** A component and the decorators wrapped around it. */
  datatype Component =
    | BaseComponent
    | ConcreteComponent
    | Decorator(component: Component)
    | ConcreteDecoratorA(component: Component)
    | ConcreteDecoratorB(component: Component)

  /** operation() of each class. */
  function Operation(c: Component): string
  {
    match c
    case BaseComponent => "Component"
    case ConcreteComponent => "ConcreteComponent"
    case Decorator(inner) => Operation(inner)
    case ConcreteDecoratorA(inner) => "DecoratorA(" + Operation(inner) + ")"
    case ConcreteDecoratorB(inner) => "DecoratorB(" + Operation(inner) + ")"
  }

  /** The undecorated component at the centre. */
  function Core(c: Component): Component
  {
    match c
    case BaseComponent => c
    case ConcreteComponent => c
    case Decorator(inner) => Core(inner)
    case ConcreteDecoratorA(inner) => Core(inner)
    case ConcreteDecoratorB(inner) => Core(inner)
  }

  /** The number of lettered decorators; the plain Decorator adds nothing. */
  function Wrappers(c: Component): nat
  {
    match c
    case BaseComponent => 0
    case ConcreteComponent => 0
    case Decorator(inner) => Wrappers(inner)
    case ConcreteDecoratorA(inner) => 1 + Wrappers(inner)
    case ConcreteDecoratorB(inner) => 1 + Wrappers(inner)
  }

  /**
   * Every lettered decorator wraps the inner text in "DecoratorX(" and ")",
   * so the result ends with the core's text followed by one ")" per decorator.
   */
  lemma {:induction false} OperationShape(c: Component)
    ensures |Operation(c)| == |Operation(Core(c))| + 12 * Wrappers(c)
    ensures Operation(c)[|Operation(c)| - Wrappers(c)..] == seq(Wrappers(c), _ => ')')
  {
    match c
    case BaseComponent =>
    case ConcreteComponent =>
    case Decorator(inner) => OperationShape(inner);
    case ConcreteDecoratorA(inner) =>
      OperationShape(inner);
      WrapShape("DecoratorA(", Operation(inner), Wrappers(inner));
    case ConcreteDecoratorB(inner) =>
      OperationShape(inner);
      WrapShape("DecoratorB(", Operation(inner), Wrappers(inner));
  }

  /** Wrapping text that ends in w closing parentheses gives text that ends in w + 1 of them. */
  lemma WrapShape(prefix: string, s: string, w: nat)
    requires w <= |s| && s[|s| - w..] == seq(w, _ => ')')
    ensures var t := prefix + s + ")"; t[|t| - (w + 1)..] == seq(w + 1, _ => ')')
  {
    var t := prefix + s + ")";
    assert t[|t| - (w + 1)..] == s[|s| - w..] + ")";
  }

  /** The demo: A around B around the concrete component. */
  lemma DecoratorDemo()
    ensures Operation(ConcreteDecoratorA(ConcreteDecoratorB(ConcreteComponent)))
         == "DecoratorA(DecoratorB(ConcreteComponent))"
  {
  }

  // ---------------------------------------------------------------- command

  /** A command bound to the (stateless) Light receiver. */
  datatype Command = TurnOnCommand | TurnOffCommand

  function Execute(c: Command): string
  {
    match c
    case TurnOnCommand => "Light is ON"
    case TurnOffCommand => "Light is OFF"
  }

  class RemoteControl {
    var command: Option<Command>

    constructor ()
      ensures command == None
    {
      command := None;
    }

    method SetCommand(c: Command)
      modifies this
      ensures command == Some(c)
    {
      command := Some(c);
    }

    /** press_button(): the command set last is executed; with none, "No command set". */
    function PressButton(): (r: string)
      reads this
      ensures command.None? <==> r == "No command set"
      ensures command.Some? ==> r == Execute(command.value)
    {
      match command
      case Some(c) => Execute(c)
      case None => "No command set"
    }
  }

  /** The demo: on, then off; and a fresh remote has no command. */
  method RemoteDemo() returns (first: string, second: string, unset: string)
    ensures first == "Light is ON" && second == "Light is OFF" && unset == "No command set"
  {
    var remote := new RemoteControl();
    unset := remote.PressButton();
    remote.SetCommand(TurnOnCommand);
    first := remote.PressButton();
    remote.SetCommand(TurnOffCommand);
    second := remote.PressButton();
  }

  // ---------------------------------------------------------------- state

  datatype State = ConcreteStateA | ConcreteStateB

  /** The state each state's `handle` installs. */
  function Next(s: State): State
  {
    match s
    case ConcreteStateA => ConcreteStateB
    case ConcreteStateB => ConcreteStateA
  }

  function HandleLine(s: State): string
  {
    match s
    case ConcreteStateA => "State A handling"
    case ConcreteStateB => "State B handling"
  }

  /** The state after k requests made from state A. */
  function StateAfter(k: nat): State
  {
    if k % 2 == 0 then ConcreteStateA else ConcreteStateB
  }

  /** Each request moves one step of the alternation. */
  lemma NextStateAfter(k: nat)
    ensures Next(StateAfter(k)) == StateAfter(k + 1)
  {
  }

  class Context {
    var state: State

    constructor ()
      ensures state == ConcreteStateA
    {
      state := ConcreteStateA;
    }

    /** request(): the current state handles it and installs the other state. */
    method Request() returns (line: string)
      modifies this
      ensures line == HandleLine(old(state)) && state == Next(old(state))
    {
      line := HandleLine(state);
      state := Next(state);
    }
  }

  /** The demo: three requests are handled by A, B and A, and leave the context in B. */
  method ContextDemo() returns (lines: seq<string>, final: State)
    ensures lines == ["State A handling", "State B handling", "State A handling"]
    ensures final == ConcreteStateB == StateAfter(3)
  {
    var context := new Context();
    var l1 := context.Request();
    var l2 := context.Request();
    var l3 := context.Request();
    lines := [l1, l2, l3];
    final := context.state;
  }

  // ---------------------------------------------------------------- builder

  class Computer {
    var cpu: Option<string>
    var memory: Option<string>
    var storage: Option<string>

    constructor ()
      ensures cpu == None && memory == None && storage == None
    {
      cpu, memory, storage := None, None, None;
    }

    /** `__str__`: an unset part shows as None. */
    function ToString(): string
      reads this
    {
      "Computer: CPU=" + Shown(cpu) + ", Memory=" + Shown(memory) + ", Storage=" + Shown(storage)
    }
  }

  function Shown(part: Option<string>): string
  {
    match part
    case Some(s) => s
    case None => "None"
  }

  class ComputerBuilder {
    const computer: Computer

    constructor ()
      ensures fresh(computer) && computer.cpu == None && computer.memory == None && computer.storage == None
    {
      computer := new Computer();
    }

    /** set_cpu(cpu): sets one part and returns the builder itself for chaining. */
    method SetCpu(cpu: string) returns (b: ComputerBuilder)
      modifies computer
      ensures b == this && computer.cpu == Some(cpu)
      ensures computer.memory == old(computer.memory) && computer.storage == old(computer.storage)
    {
      computer.cpu := Some(cpu);
      b := this;
    }

    method SetMemory(memory: string) returns (b: ComputerBuilder)
      modifies computer
      ensures b == this && computer.memory == Some(memory)
      ensures computer.cpu == old(computer.cpu) && computer.storage == old(computer.storage)
    {
      computer.memory := Some(memory);
      b := this;
    }

    method SetStorage(storage: string) returns (b: ComputerBuilder)
      modifies computer
      ensures b == this && computer.storage == Some(storage)
      ensures computer.cpu == old(computer.cpu) && computer.memory == old(computer.memory)
    {
      computer.storage := Some(storage);
      b := this;
    }

    /** build(): the one computer the setters filled in. */
    method Build() returns (c: Computer)
      ensures c == computer
    {
      c := computer;
    }
  }

  /** The demo: the chained calls fill all three parts of one computer. */
  method BuilderDemo() returns (text: string)
    ensures text == "Computer: CPU=" + "Intel i7" + ", Memory=" + "16GB" + ", Storage=" + "512GB SSD"
  {
    var builder := new ComputerBuilder();
    var b1 := builder.SetCpu("Intel i7");
    var b2 := b1.SetMemory("16GB");
    var b3 := b2.SetStorage("512GB SSD");
    var computer := b3.Build();
    text := computer.ToString();
  }

  // ---------------------------------------------------------------- proxy

  class RealSubject {
    constructor ()
    {
    }

    function Request(): string
    {
      "RealSubject: Handling request"
    }
  }

  class Proxy {
    var realSubject: RealSubject?

    constructor ()
      ensures realSubject == null
    {
      realSubject := null;
    }

    /** request(): the real subject is created on the first request only, then asked. */
    method Request() returns (r: string)
      modifies this
      ensures r == "RealSubject: Handling request"
      ensures old(realSubject) != null ==> realSubject == old(realSubject)
      ensures old(realSubject) == null ==> realSubject != null && fresh(realSubject)
    {
      if realSubject == null {
        realSubject := new RealSubject();
      }
      r := realSubject.Request();
    }
  }

  /** Two requests through one proxy use the same real subject. */
  method ProxyDemo() returns (r1: string, r2: string, sameSubject: bool)
    ensures r1 == r2 == "RealSubject: Handling request"
    ensures sameSubject
  {
    var proxy := new Proxy();
    r1 := proxy.Request();
    var first := proxy.realSubject;
    r2 := proxy.Request();
    sameSubject := proxy.realSubject == first;
  }
}
