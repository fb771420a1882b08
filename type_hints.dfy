/**
 * The typed helpers of 32_type_hints.py: list and dictionary
 * comprehensions, optional lookups, the generic stack, a person with a
 * friend list and the overloaded `process`.
 */
module TypeHints {
  import opened PyCore
  import Recursion

  /** process_numbers(numbers): every number doubled, in order. */
  function ProcessNumbers(numbers: seq<int>): (r: seq<int>)
    ensures |r| == |numbers|
    ensures forall i :: 0 <= i < |numbers| ==> r[i] == 2 * numbers[i]
  {
    seq(|numbers|, i requires 0 <= i < |numbers| => numbers[i] * 2)
  }

  /** Doubling every element doubles the total. */
  lemma {:induction false} ProcessNumbersSum(numbers: seq<int>)
    ensures Recursion.SumList(ProcessNumbers(numbers)) == 2 * Recursion.SumList(numbers)
  {
    if numbers != [] {
      assert ProcessNumbers(numbers)[1..] == ProcessNumbers(numbers[1..]);
      ProcessNumbersSum(numbers[1..]);
    }
  }

  /** Doubling a concatenation doubles each part. */
  lemma ProcessNumbersAppend(a: seq<int>, b: seq<int>)
    ensures ProcessNumbers(a + b) == ProcessNumbers(a) + ProcessNumbers(b)
  {
  }

  lemma ProcessNumbersDemo()
    ensures ProcessNumbers([1, 2, 3, 4, 5]) == [2, 4, 6, 8, 10]
  {
  }

  function GradeText(score: int): string
  {
    "Grade: " + IntToString(score)
  }

  /** process_scores(scores): the same names, in the same order, each with its grade text. */
  function ProcessScores(scores: Dict<string, int>): (r: Dict<string, string>)
    ensures Keys(r) == Keys(scores)
    ensures forall i :: 0 <= i < |scores| ==> r[i].1 == GradeText(scores[i].1)
  {
    seq(|scores|, i requires 0 <= i < |scores| => (scores[i].0, GradeText(scores[i].1)))
  }

  /** Looking a name up in the result is looking it up in the scores and formatting the score. */
  lemma {:induction false} ProcessScoresGet(scores: Dict<string, int>, name: string)
    ensures Get(ProcessScores(scores), name)
         == match Get(scores, name) case None => None case Some(score) => Some(GradeText(score))
  {
    if scores != [] {
      var r := ProcessScores(scores);
      assert r[0] == (scores[0].0, GradeText(scores[0].1));
      assert r[1..] == ProcessScores(scores[1..]);
      ProcessScoresGet(scores[1..], name);
    }
  }

  /** The user table shared by find_user and get_user. */
  function Users(): Dict<int, string>
  {
    [(1, "Alice"), (2, "Bob")]
  }

  /** find_user(id) and get_user(id): `users.get(id)`. */
  function FindUser(userId: int): (r: Option<string>)
    ensures r.Some? <==> userId == 1 || userId == 2
    ensures userId == 1 ==> r == Some("Alice")
    ensures userId == 2 ==> r == Some("Bob")
  {
    Get(Users(), userId)
  }

  lemma FindUserDemo()
    ensures FindUser(1) == Some("Alice") && FindUser(99) == None
  {
  }

  /** first_item(items): None for an empty list, otherwise its first element. */
  function FirstItem<T>(items: seq<T>): (r: Option<T>)
    ensures r.None? <==> items == []
    ensures r.Some? ==> |items| > 0 && r.value == items[0]
  {
    if |items| > 0 then Some(items[0]) else None
  }

  lemma FirstItemDemo()
    ensures FirstItem(["a", "b", "c"]) == Some("a") && FirstItem([1, 2, 3]) == Some(1)
  {
  }

  /**
   * process(value) for an int or a str: an int (or bool) becomes its `str`,
   * a string becomes its length.
   */
  function Process(value: PyValue): (r: PyValue)
    requires IsInt(value) || value.PyStr?
    ensures IsInt(value) ==> r.PyStr?
    ensures value.PyInt? ==> r.PyStr? && ParseInt(r.s) == Ok(value.i)
    ensures value.PyStr? ==> r == PyInt(|value.s|)
  {
    if value.PyInt? then
      ParseIntToString(value.i);
      PyStr(Str(value))
    else if value.PyBool? then PyStr(Str(value))
    else PyInt(|value.s|)
  }

  lemma ProcessDemo()
    ensures Process(PyInt(123)) == PyStr("123") && Process(PyStr("hello")) == PyInt(5)
  {
    assert NatToString(1) == "1";
    assert NatToString(12) == "12";
    assert NatToString(123) == "123";
    assert Str(PyInt(123)) == "123";
  }

  /** The generic Stack: a list used from its end. */
  class Stack<T> {
    var items: seq<T>

    constructor ()
      ensures items == []
    {
      items := [];
    }

    /** push(item): appends to the end. */
    method Push(item: T)
      modifies this
      ensures items == old(items) + [item]
    {
      items := items + [item];
    }

    /** pop(): removes and returns the last item; an empty list raises IndexError. */
    method Pop() returns (r: Result<T>)
      modifies this
      ensures old(items) == [] ==> r == Err(PyError(IndexError, "pop from empty list")) && items == old(items)
      ensures old(items) != [] ==> r == Ok(old(items)[|old(items)| - 1]) && items == old(items)[..|old(items)| - 1]
    {
      if items == [] {
        return Err(PyError(IndexError, "pop from empty list"));
      }
      r := Ok(items[|items| - 1]);
      items := items[..|items| - 1];
    }
  }

  /** Pushing then popping returns the pushed item and restores the stack. */
  method PushThenPop<T>(s: Stack<T>, x: T) returns (r: Result<T>)
    modifies s
    ensures r == Ok(x) && s.items == old(s.items)
  {
    s.Push(x);
    r := s.Pop();
    assert (old(s.items) + [x])[..|old(s.items)|] == old(s.items);
  }

  /** The demo: push 1, push 2, pop gives 2. */
  method StackDemo() returns (popped: Result<int>)
    ensures popped == Ok(2)
  {
    var intStack := new Stack<int>();
    intStack.Push(1);
    intStack.Push(2);
    popped := intStack.Pop();
  }

  class Person {
    var name: string
    var age: int
    var friends: seq<string>

    constructor (name: string, age: int)
      ensures this.name == name && this.age == age && friends == []
    {
      this.name := name;
      this.age := age;
      friends := [];
    }

    /** add_friend(friend): appends to the end of the friend list and touches nothing else. */
    method AddFriend(friend: string)
      modifies this
      ensures friends == old(friends) + [friend]
      ensures name == old(name) && age == old(age)
    {
      friends := friends + [friend];
    }

    /** get_info(): "{name}, age {age}". */
    function GetInfo(): string
      reads this
    {
      name + ", age " + IntToString(age)
    }
  }

  /** The demo: Alice, 30, befriends Bob. */
  method PersonDemo() returns (info: string, friends: seq<string>)
    ensures info == "Alice, age 30" && friends == ["Bob"]
  {
    var person := new Person("Alice", 30);
    person.AddFriend("Bob");
    info := person.GetInfo();
    friends := person.friends;
    assert NatToString(3) == "3";
  }
}
