# Verified models of the sequential lessons of a Python tutorial

The repository is a set of numbered Python tutorial scripts. This project
models the parts of them that compute something or keep state without
threads, I/O or floating point, and proves what the lessons say about them:

- the recursive integer functions: factorial, Fibonacci, power, list sum,
  binary search, and a Tower of Hanoi that returns its moves instead of
  printing them;
- the guarded state changes of a bank account, a student's grade, a typed
  stack and a person's friend list;
- the raising helpers: `withdraw`, `divide`, `validate_age`,
  `validate_config` and `process_age`;
- date arithmetic, list chunking and slice assignment;
- configuration layering (environment over file over defaults);
- the design patterns: singleton, factory, observer, strategy, decorator,
  command, state, builder and proxy;
- the iterator and generator protocols;
- the slow/fast pairs of the profiling lesson and the memo dictionary of
  the caching lesson;
- descriptors with per-instance storage;
- the namespace transforms of the metaclasses lesson.

There is one module per lesson, plus `PyCore`, which holds the parts of
Python the lessons rely on:

- optional values;
- exceptions as `Err` results, with the exception class tree;
- dynamically typed values, including `bool` counting as an `int`;
- `str()` and `int()` on integers;
- ASCII `lower()`/`upper()`;
- Python `==` and truthiness;
- the insertion-ordered `dict`, kept as a list of items with distinct keys.

Each kind of source code has its own form in the model:

- A class whose methods update fields is a Dafny `class`. Its methods carry
  `modifies` clauses and state the whole new state.
- A loop is a `method` with loop invariants. It is proved equal to a
  specification function.
- Comprehensions and expressions are functions, with lemmas relating them.
- Most of what a lesson prints is returned as a string or a list of lines; the prints listed under "Left out" are dropped.
- The environment, a config file's contents and `date.today()` are
  parameters.

## Model

| member | source | states |
|---|---|---|
| Recursion.Factorial | 27_recursion.py:12-18 | factorial(n) is at least 1 for every n, 1 for n ≤ 1 |
| Recursion.FactorialIsProduct | 27_recursion.py:12-18 | for n ≥ 0 the recursion equals the ascending product 1·2·…·n, which is defined independently of it |
| Recursion.FactorialDivisible | 27_recursion.py:12-18 | every k in 1..n divides factorial(n) |
| Recursion.FactorialOfFive | 27_recursion.py:20 | factorial(5) is 120 |
| Recursion.Fibonacci | 27_recursion.py:25-33 | never negative, and at least 1 from n = 1 on; FibonacciSum relates the values |
| Recursion.FibonacciSum | 27_recursion.py:25-33 | the first n Fibonacci numbers add up to F(n+1) − 1 |
| Recursion.FibonacciFirstTen | 27_recursion.py:35-37 | the first ten values are 0, 1, 1, 2, 3, 5, 8, 13, 21, 34 |
| Recursion.Power | 27_recursion.py:41-47 | base multiplied by itself exponent times, 1 for exponent 0, defined for the non-negative exponents on which the recursion ends; PowerAdd and PowerPositive state its laws |
| Recursion.PowerAdd | 27_recursion.py:41-47 | power(b, m + n) = power(b, m) · power(b, n) for non-negative exponents |
| Recursion.PowerPositive | 27_recursion.py:41-47 | a positive base has positive powers |
| Recursion.PowerTwoFive | 27_recursion.py:49 | power(2, 5) is 32 |
| Recursion.SumList | 27_recursion.py:53-58 | the head plus the sum of the tail, 0 for the empty list; SumListAppend and SumListSnoc make it a sum over any split |
| Recursion.SumListAppend | 27_recursion.py:53-58 | the sum of a concatenation is the sum of the two parts |
| Recursion.SumListSnoc | 27_recursion.py:53-58 | appending x adds x to the sum |
| Recursion.SumListExample | 27_recursion.py:60-61 | sum_list([1, 2, 3, 4, 5]) is 15 |
| Recursion.BinarySearch | 27_recursion.py:65-84 | the result is −1 or an index in low..high holding the target; on a sorted list −1 means the target is not in arr[low..high] |
| Recursion.Search | 27_recursion.py:65-84 | with the default bounds: −1 or an index of the target; on a sorted list −1 exactly when the target is absent |
| Recursion.SearchExample | 27_recursion.py:86-87 | searching [1, 3, 5, 7, 9, 11, 13] for 7 gives 3 |
| Recursion.TowerOfHanoi | 27_recursion.py:91-98 | the printed moves in order, for n ≥ 1; HanoiShape and HanoiSolves say the list is legal and moves the tower |
| Recursion.HanoiShape | 27_recursion.py:91-98 | for n ≥ 1 there are 2ⁿ − 1 moves; disk n moves exactly once, from source to destination, at the middle position; every other move is of a smaller disk |
| Recursion.HanoiThreeDisks | 27_recursion.py:91-100 | the seven moves printed for three disks A→C via B |
| Recursion.HanoiSplit | 27_recursion.py:91-98 | the moves for n are the moves for n − 1 to the spare peg, disk n's move, and the moves for n − 1 from the spare peg |
| Recursion.HanoiSolves | 27_recursion.py:91-98 | the moves are legal: starting from n..1 on top of the source peg and only larger disks elsewhere, no disk ever lands on a smaller one, and the n disks end on the destination peg with the rest of the pegs unchanged |
| Recursion.HanoiFromStart | 27_recursion.py:91-98 | starting with all n disks on the source peg, the moves end with all n disks on the destination peg and the other two pegs empty |
| ClassesObjects.ApplyMovesByAmount | 15_classes_and_objects.py:89-101 | a deposit or withdrawal either leaves the balance alone or changes it by exactly the amount |
| ClassesObjects.RunNonNegative | 15_classes_and_objects.py:83-101 | no sequence of deposits and withdrawals takes a non-negative balance below zero |
| ClassesObjects.RunAppend | 15_classes_and_objects.py:89-101 | running two histories one after the other is running their concatenation |
| ClassesObjects.DemoHistory | 15_classes_and_objects.py:107-110 | with an opening balance of 100, deposit 50 and then withdraw 30 leave 120 |
| ClassesObjects.BankAccount.constructor | 15_classes_and_objects.py:83-87 | an account with the given number and opening balance |
| ClassesObjects.BankAccount.Deposit | 15_classes_and_objects.py:89-94 | a positive amount adds exactly that amount and reports the new balance; any other amount leaves the balance unchanged and says so; a non-negative balance stays non-negative |
| ClassesObjects.DepositMessage | 15_classes_and_objects.py:93 | "Deposited $amount. New balance: $balance", the text Deposit's contract returns on success |
| ClassesObjects.WithdrawMessage | 15_classes_and_objects.py:100 | "Withdrew $amount. New balance: $balance", the text Withdraw's contract returns on success |
| ClassesObjects.BankAccount.Withdraw | 15_classes_and_objects.py:96-101 | the balance drops by the amount when 0 < amount ≤ balance; otherwise it is unchanged and the withdrawal is invalid; a non-negative balance stays non-negative |
| ClassesObjects.BankAccount.GetBalance | 15_classes_and_objects.py:103-105 | the current balance, which Deposit's and Withdraw's contracts and RunNonNegative describe |
| ClassesObjects.DemoMessages | 15_classes_and_objects.py:92-100 | the demo's deposit and withdrawal messages, with the amounts and balances written as decimals |
| ClassesObjects.BankDemo | 15_classes_and_objects.py:107-110 | the demo prints both messages and a balance of 120 |
| ClassesObjects.Student.constructor | 15_classes_and_objects.py:142-146 | a new student has no grade |
| ClassesObjects.Student.SetGrade | 15_classes_and_objects.py:148-153 | a grade in 0..100 is stored; any other is refused with a warning and the previous grade kept; a stored grade is always in range |
| ClassesObjects.Student.GetGrade | 15_classes_and_objects.py:155-157 | the stored grade, None until one is set; StudentDemo reads it before and after the set |
| ClassesObjects.StudentDemo | 15_classes_and_objects.py:142-162 | get_grade() is None before any set and 85 after set_grade(85) |
| ErrorHandling.Divide | 14_error_handling.py:81-85 | succeeds exactly when b ≠ 0, with a quotient q such that q·b = a; a zero divisor raises ValueError with the lesson's message |
| ErrorHandling.DivideByZeroDemo | 14_error_handling.py:87-90 | divide(10, 0) raises ValueError |
| ErrorHandling.Withdraw | 14_error_handling.py:140-144 | succeeds exactly when amount ≤ balance, with remainder + amount = balance; for a non-negative amount the remainder is in 0..balance; otherwise InsufficientFundsError with both amounts in the message |
| ErrorHandling.InsufficientFundsMessage | 14_error_handling.py:142-143 | the message naming the balance and the requested amount that Withdraw's error carries |
| ErrorHandling.WithdrawAll | 14_error_handling.py:142-144 | withdrawing the whole balance is allowed and leaves 0 |
| ErrorHandling.InsufficientFundsIsException | 14_error_handling.py:136-138 | the custom error derives from Exception and not from ValueError |
| ErrorHandling.WithdrawDemo | 14_error_handling.py:146-149 | withdraw(100, 150) raises InsufficientFundsError naming 100 and 150 |
| TypeHints.ProcessNumbers | 32_type_hints.py:31-33 | same length, each element doubled, in order |
| TypeHints.ProcessNumbersSum | 32_type_hints.py:31-33 | doubling every element doubles the total |
| TypeHints.ProcessNumbersAppend | 32_type_hints.py:31-33 | the doubling works element by element: doubling a concatenation concatenates the doubled parts |
| TypeHints.ProcessNumbersDemo | 32_type_hints.py:35-37 | [1, 2, 3, 4, 5] gives [2, 4, 6, 8, 10] |
| TypeHints.ProcessScores | 32_type_hints.py:42-44 | the result has the same keys in the same order, each mapped to "Grade: " followed by its score |
| TypeHints.ProcessScoresGet | 32_type_hints.py:42-44 | looking a name up in the result is formatting its score, and a name without a score has no entry |
| TypeHints.FindUser | 32_type_hints.py:53-56 | ids 1 and 2 give "Alice" and "Bob"; every other id gives None |
| TypeHints.FindUserDemo | 32_type_hints.py:58-61 | find_user(1) is "Alice" and find_user(99) is None |
| TypeHints.FirstItem | 32_type_hints.py:160-162 | None exactly for the empty list, otherwise its first element |
| TypeHints.FirstItemDemo | 32_type_hints.py:164-165 | the first items of ['a', 'b', 'c'] and [1, 2, 3] are 'a' and 1 |
| TypeHints.Process | 32_type_hints.py:206-210 | an int becomes a decimal string that int() reads back as the same number; a string becomes its length |
| TypeHints.ProcessDemo | 32_type_hints.py:212-213 | process(123) is "123" and process("hello") is 5 |
| TypeHints.Stack.constructor | 32_type_hints.py:111-112 | a new stack is empty |
| TypeHints.Stack.Push | 32_type_hints.py:114-116 | the item is appended at the end |
| TypeHints.Stack.Pop | 32_type_hints.py:118-120 | returns and removes the last item; an empty stack raises IndexError and is unchanged |
| TypeHints.PushThenPop | 32_type_hints.py:114-120 | push(x) followed by pop() returns x and restores the stack |
| TypeHints.StackDemo | 32_type_hints.py:122-126 | push 1, push 2, pop gives 2 |
| TypeHints.Person.constructor | 32_type_hints.py:173-177 | name and age as given, no friends |
| TypeHints.Person.AddFriend | 32_type_hints.py:179-181 | the friend is appended at the end; name and age are unchanged |
| TypeHints.PersonDemo | 32_type_hints.py:187-189 | Alice, 30, with friend Bob: get_info() is "Alice, age 30" |
| TypeHints.Person.GetInfo | 32_type_hints.py:183-185 | "name, age n"; PersonDemo gives "Alice, age 30" |
| DateTime.CalculateAge | 18_working_with_datetime.py:150-157 | the age is the number of birthdays reached: the age-th anniversary is on or before today and the next is after it; non-negative when today is not before the birth date |
| DateTime.AgeUnique | 18_working_with_datetime.py:150-157 | any count of years that lies between an anniversary reached and the next one not reached is the computed age |
| DateTime.AgeOnBirthday | 18_working_with_datetime.py:155-156 | on the birthday itself the age is the full year difference, since the comparison is strict |
| DateTime.AgeDayBefore | 18_working_with_datetime.py:155-156 | the day before the birthday the age is one less |
| DateTime.AgeDemo | 18_working_with_datetime.py:159-162 | born 1990-05-15: 33 on 2024-05-14 and 34 on 2024-05-15 |
| DateTime.DurationParts | 18_working_with_datetime.py:174-179 | hours < 24, minutes < 60, seconds < 60, and days·86400 + hours·3600 + minutes·60 + seconds is the input |
| DateTime.DurationRoundTrip | 18_working_with_datetime.py:174-179 | splitting the total of a normalized duration gives back that duration |
| DateTime.DurationPartsInjective | 18_working_with_datetime.py:174-179 | two different second counts never give the same parts |
| DateTime.FormatDuration | 18_working_with_datetime.py:174-179 | the four parts of DurationParts in decimal with their units; DurationRoundTrip makes the parts recover the seconds |
| DateTime.FormatDurationDemo | 18_working_with_datetime.py:182-184 | 3661 seconds is "0 days, 1 hours, 1 minutes, 1 seconds" |
| DateTime.DurationPartsDemo | 18_working_with_datetime.py:182 | 3661 seconds splits into 0 days, 1 hour, 1 minute and 1 second |
| ListSlicing.Clamp | 23_list_slicing_advanced.py:15-17 | a slice bound resolved as Python does: in 0..n, unchanged when already in range, counted from the end when negative, n when above n, 0 when below −n |
| ListSlicing.Slice | 23_list_slicing_advanced.py:15-17 | never longer than the list; for bounds in range it is exactly that sub-list |
| ListSlicing.ChunkList | 23_list_slicing_advanced.py:27-29 | a chunk size of 0 raises ValueError (as range does); a negative one gives no chunks; a positive one gives the chunks |
| ListSlicing.ChunkCountBounds | 23_list_slicing_advanced.py:29 | there is a chunk starting at j·k exactly when j·k < len(lst), so there are ⌈len/k⌉ chunks |
| ListSlicing.ChunkShape | 23_list_slicing_advanced.py:29 | chunk j is lst[j·k : j·k + k], cut short at the end of the list |
| ListSlicing.ChunkSizes | 23_list_slicing_advanced.py:29 | every chunk has 1..k elements, and all but the last have exactly k |
| ListSlicing.FlattenChunks | 23_list_slicing_advanced.py:27-29 | concatenating the chunks gives back the list |
| ListSlicing.ChunkEmpty | 23_list_slicing_advanced.py:29 | the empty list has no chunks |
| ListSlicing.ChunkListDemo | 23_list_slicing_advanced.py:31-33 | range(10) in chunks of 3 is [[0,1,2],[3,4,5],[6,7,8],[9]] |
| ListSlicing.RemoveRange | 23_list_slicing_advanced.py:36-37 | `xs[:a] + xs[b:]` with Python's clamped slices; RemoveRangeSpec gives its elements |
| ListSlicing.RemoveRangeSpec | 23_list_slicing_advanced.py:36-37 | `xs[:a] + xs[b:]` drops exactly the indices a..b−1 and keeps the rest in order |
| ListSlicing.RemoveDemo | 23_list_slicing_advanced.py:36-38 | removing indices 2 and 3 from [0..5] gives [0, 1, 4, 5] |
| ListSlicing.AssignSlice | 23_list_slicing_advanced.py:41-42 | for any bounds, negative and out of range included: the elements before the resolved start are kept, ys follows them, then the elements from the resolved end on; the length changes by \|ys\| minus the slice length |
| ListSlicing.AssignSliceSameLength | 23_list_slicing_advanced.py:41-42 | replacing a slice by as many elements keeps the length and changes only those indices |
| ListSlicing.AssignSliceThenSlice | 23_list_slicing_advanced.py:41-42 | reading the slice back gives the assigned elements |
| ListSlicing.ReplaceDemo | 23_list_slicing_advanced.py:41-43 | `numbers[1:4] = [10, 20, 30]` gives [0, 10, 20, 30, 4, 5] |
| Config.GetEnv | 50_configuration_management.py:134-137 | `os.getenv(name, default)`: the variable when set, the default otherwise |
| Config.EnvPort | 50_configuration_management.py:135 | int() of DB_PORT when it is set (which may raise ValueError), 5432 when it is not |
| Config.NewConfig | 50_configuration_management.py:133-137 | fails exactly when int() of the port fails; otherwise the host, port, key and debug flag come from the environment or their defaults |
| Config.ConfigFromFile | 50_configuration_management.py:140-150 | the environment's settings, with host and port replaced by the file's database section where it has them; it fails exactly when `Config()` does, with the same ValueError |
| Config.SectionValue | 50_configuration_management.py:146-148 | the section's value when the section has the key, the current value otherwise |
| Config.FileOr | 50_configuration_management.py:169-172 | the file's value when there is a file with the key, the default otherwise |
| Config.Layered | 50_configuration_management.py:294-297 | the documented priority: environment variable, then file, then default |
| Config.DefaultsShape | 50_configuration_management.py:162-166 | the defaults are host "localhost", port 8080 and debug False, in that order |
| Config.MergedValues | 50_configuration_management.py:162-172 | after the file is merged, host, port and debug hold the file's values where it has them and the defaults otherwise |
| Config.MergeFile | 50_configuration_management.py:168-172 | `defaults.update(file_config)` item by item: keys stay distinct, host/port/debug keep their places, and each key holds the file's value if the file has it |
| Config.UpdateDefaultsMerged | 50_configuration_management.py:172 | updating the defaults with the file gives each key its file value or its default |
| Config.LoadConfig | 50_configuration_management.py:160-179 | fails exactly when int() of the chosen port fails; otherwise host and port are taken from the environment, then the file, then the default; debug is whether the chosen text lowercases to "true"; every other key is the file's; keys are distinct |
| Config.LoadConfigDefaults | 50_configuration_management.py:160-179 | with nothing set and no file: "localhost", 8080 and debug off ("False" does not lowercase to "true") |
| Config.LoadConfigFileDebug | 50_configuration_management.py:177 | a file debug value of true turns debug on, since str(True) lowercases to "true" |
| Config.LoadConfigPrecedence | 50_configuration_management.py:175 | HOST overrides the file's host; without HOST the file's host is used; with neither, the default |
| Config.ConfigErrors | 50_configuration_management.py:190-198 | no problems exactly when the config is valid; a missing host is reported first as "Missing 'host'"; an invalid port is reported with its value; at most two problems |
| Config.ValidateConfig | 50_configuration_management.py:188-203 | True exactly when host is present and the port is absent or an int in 1..65535; otherwise ValueError listing every problem in order |
| Config.BothProblems | 50_configuration_management.py:190-201 | with both problems, the message names the missing host and then the invalid port |
| Config.PortBoundaries | 50_configuration_management.py:197 | ports 1 and 65535 pass; 0, 65536 and the string "8080" do not; True counts as port 1 |
| Config.ValidateDemo | 50_configuration_management.py:205-211 | {"host": "localhost", "port": 8080} is valid |
| Config.GetEnvironmentConfig | 50_configuration_management.py:227-246 | staging and production get their entries; an unset or unknown environment gets the development entry |
| Config.DebugOnlyInDevelopment | 50_configuration_management.py:227-246 | debug is on exactly when the environment is neither staging nor production |
| ExceptionTypes.ValidationErrorText | 28_exception_types.py:119-124 | the text is the field, then ": ", then the message |
| ExceptionTypes.ValidationErrorTextInjective | 28_exception_types.py:119-124 | for a known field the message can be read back from the text |
| ExceptionTypes.ValidationErrorAncestry | 28_exception_types.py:115-124 | ValidationError derives from CustomError and Exception, not from ValueError or TypeError |
| ExceptionTypes.ValidateAge | 28_exception_types.py:126-134 | True exactly for an int in 0..150; anything else that is not an int raises TypeError; a negative age and an age above 150 raise ValidationError for field "age" with their own messages |
| ExceptionTypes.TypeCheckFirst | 28_exception_types.py:128-129 | a string, even one of digits, raises TypeError before any range check |
| ExceptionTypes.RangeErrorsAreValidationErrors | 28_exception_types.py:130-133 | every failure on an int is a ValidationError, caught by `except CustomError`, whose text starts with "age: " |
| ExceptionTypes.ValidateAgeDemo | 28_exception_types.py:136-141 | validate_age(-5) raises "age: Age cannot be negative" |
| ExceptionTypes.ValidateAgeBounds | 28_exception_types.py:130-134 | 0 and 150 pass, 151 does not, and True passes as the int 1 |
| ExceptionTypes.HandleException | 28_exception_types.py:158-165 | the isinstance tests in the source's order; HandleExceptionClassifies gives the class each message belongs to |
| ExceptionTypes.HandleExceptionClassifies | 28_exception_types.py:158-165 | each of the three messages is given for exactly its class: ValueError subclasses, other TypeError subclasses, and everything else |
| ExceptionTypes.HandleExceptionDemo | 28_exception_types.py:167-171 | int("not a number") raises ValueError, so the value-error message is given |
| ExceptionTypes.HandleOtherExceptions | 28_exception_types.py:158-165 | validate_age's TypeError gets the type message; a ValidationError gets the unknown message |
| Debugging.CalculateTotal | 48_debugging.py:19-30 | the loop's total is the sum of the items |
| Debugging.CalculateTotalDemo | 48_debugging.py:32-33 | calculate_total([1, 2, 3, 4, 5]) is 15 |
| Debugging.ProcessAge | 48_debugging.py:98-102 | the age comes back exactly when 0 ≤ age < 150; otherwise AssertionError |
| Debugging.ProcessAgeStricter | 48_debugging.py:98-102 | every age process_age accepts, validate_age accepts too; they differ only at 150 |
| Debugging.SumResultsFails | 48_debugging.py:235-242 | a sum over items that may raise fails exactly when some item raises, and then with the first such error |
| Debugging.SumResultsValues | 48_debugging.py:235-242 | without errors the sum is the sum of the values |
| Debugging.SumOfIntsDecimal | 48_debugging.py:235-242 | summing int() of the decimal strings of numbers gives the sum of the numbers |
| Debugging.SumOfIntsFails | 48_debugging.py:235-242 | the sum fails exactly when int() refuses one of the strings, and then with ValueError |
| Debugging.TypeBugExample | 48_debugging.py:235-242 | the fixed version returns 6 |
| Debugging.TypeBugUnparsed | 48_debugging.py:241 | a string int() refuses makes the whole sum fail |
| Debugging.OffByOneExample | 48_debugging.py:247-252 | five elements, each the double of the original |
| Debugging.NoneHandling | 48_debugging.py:257-263 | "default" exactly when the value is None or empty; otherwise the value upper-cased |
| Debugging.UpperHasNoLowercase | 48_debugging.py:262 | an upper-cased non-empty string is never "default", so the two cases cannot be confused |
| Debugging.NoneHandlingExample | 48_debugging.py:257-263 | with None the result is "default" |
| Debugging.FindBugInCode | 48_debugging.py:270-282 | the loop runs one index too far; the IndexError is caught and reported once, and the total is 15 |
| DesignPatterns.SingletonClass.constructor | 40_design_patterns.py:12-15 | no instance yet |
| DesignPatterns.SingletonClass.New | 40_design_patterns.py:17-21 | the first call creates the instance; every later call returns that same object |
| DesignPatterns.SingletonDemo | 40_design_patterns.py:23-26 | `s1 is s2` |
| DesignPatterns.CreateAnimal | 40_design_patterns.py:44-54 | Dog exactly for names that lowercase to "dog", Cat for "cat", and ValueError naming the input for every other name |
| DesignPatterns.CreateAnimalIgnoresCase | 40_design_patterns.py:44-54 | names that differ only in letter case give the same result |
| DesignPatterns.CreateAnimalDemo | 40_design_patterns.py:57-62 | "dog" barks and "CAT" meows; "bird" raises |
| DesignPatterns.NotifyLines | 40_design_patterns.py:82-85 | one line per attached observer, in attachment order, each that observer's update of the state |
| DesignPatterns.ConcreteObserver.UpdateLine | 40_design_patterns.py:104-105 | the line an observer's update prints: "name received update: state" |
| DesignPatterns.IndexOf | 40_design_patterns.py:78-80 | the first position holding the observer |
| DesignPatterns.RemoveFirstSpec | 40_design_patterns.py:78-80 | list.remove drops one copy of the element (one shorter, the multiset less that one) at its first occurrence, and keeps the rest in order |
| DesignPatterns.RemoveFirst | 40_design_patterns.py:78-80 | `list.remove(x)` for an x in the list; RemoveFirstSpec gives its result and Subject.Detach raises ValueError for an absent one |
| DesignPatterns.AttachThenDetach | 40_design_patterns.py:74-80 | detaching an observer just attached, and attached only then, restores the list |
| DesignPatterns.Subject.constructor | 40_design_patterns.py:70-72 | no observers, state None |
| DesignPatterns.Subject.Attach | 40_design_patterns.py:74-76 | the observer is appended, even if already attached |
| DesignPatterns.Subject.Detach | 40_design_patterns.py:78-80 | raises ValueError exactly when the observer is absent, and then changes nothing; otherwise its first occurrence is removed |
| DesignPatterns.Subject.Notify | 40_design_patterns.py:82-85 | every observer gets update(state), in attachment order |
| DesignPatterns.Subject.SetState | 40_design_patterns.py:87-90 | the state is stored first, so every observer is notified of the new state |
| DesignPatterns.ObserverDemo | 40_design_patterns.py:109-118 | both observers report "New State", Observer 1 first |
| DesignPatterns.Total | 40_design_patterns.py:151-154 | the sum of the item prices |
| DesignPatterns.TotalSnoc | 40_design_patterns.py:148-154 | adding an item adds its price to the total |
| DesignPatterns.ShoppingCart.constructor | 40_design_patterns.py:144-146 | the chosen strategy and no items |
| DesignPatterns.ShoppingCart.AddItem | 40_design_patterns.py:148-149 | the item is appended and the total grows by its price |
| DesignPatterns.Pay | 40_design_patterns.py:123-139 | each strategy's "Paid $amount using …" text; PayDemo gives the credit-card case |
| DesignPatterns.ShoppingCart.Checkout | 40_design_patterns.py:151-153 | the strategy pays the sum of the item prices; AddItem and TotalSnoc say how adding an item raises it |
| DesignPatterns.ShoppingCartDemo | 40_design_patterns.py:156-161 | a Book for 20 and a Pen for 5, paid by credit card: "Paid $25 using Credit Card" |
| DesignPatterns.PayDemo | 40_design_patterns.py:129-131 | the credit-card strategy's text for 25 |
| DesignPatterns.Operation | 40_design_patterns.py:166-192 | operation() of each component, a plain decorator delegating and the lettered ones wrapping the inner text |
| DesignPatterns.OperationShape | 40_design_patterns.py:166-192 | each lettered decorator adds 12 characters and one closing parenthesis around the inner text |
| DesignPatterns.DecoratorDemo | 40_design_patterns.py:194-198 | A around B around the component gives "DecoratorA(DecoratorB(ConcreteComponent))" |
| DesignPatterns.RemoteControl.constructor | 40_design_patterns.py:328-329 | no command set |
| DesignPatterns.RemoteControl.SetCommand | 40_design_patterns.py:331-332 | the command is replaced |
| DesignPatterns.Execute | 40_design_patterns.py:296-324 | the light's "Light is ON" or "Light is OFF" for the two commands |
| DesignPatterns.RemoteControl.PressButton | 40_design_patterns.py:334-337 | "No command set" exactly when no command is set; otherwise the last command set runs |
| DesignPatterns.RemoteDemo | 40_design_patterns.py:340-348 | on, then off; a fresh remote has no command |
| DesignPatterns.NextStateAfter | 40_design_patterns.py:359-367 | each request moves the alternation A, B, A, … by one step |
| DesignPatterns.Next | 40_design_patterns.py:359-367 | the state each state's handle installs: A installs B, B installs A |
| DesignPatterns.HandleLine | 40_design_patterns.py:359-367 | the line each state's handle prints |
| DesignPatterns.Context.constructor | 40_design_patterns.py:372-373 | starts in state A |
| DesignPatterns.Context.Request | 40_design_patterns.py:375-376 | the current state handles the request and installs the other state |
| DesignPatterns.ContextDemo | 40_design_patterns.py:379-384 | three requests are handled by A, B and A, and leave the context in B |
| DesignPatterns.Computer.constructor | 40_design_patterns.py:392-395 | all parts unset |
| DesignPatterns.ComputerBuilder.constructor | 40_design_patterns.py:403-404 | a new, empty computer |
| DesignPatterns.ComputerBuilder.SetCpu | 40_design_patterns.py:406-408 | sets the CPU only and returns the builder itself |
| DesignPatterns.ComputerBuilder.SetMemory | 40_design_patterns.py:410-412 | sets the memory only and returns the builder itself |
| DesignPatterns.ComputerBuilder.SetStorage | 40_design_patterns.py:414-416 | sets the storage only and returns the builder itself |
| DesignPatterns.ComputerBuilder.Build | 40_design_patterns.py:418-419 | the one computer the setters filled in |
| DesignPatterns.Computer.ToString | 40_design_patterns.py:397-398 | `__str__`: the three parts, each shown as None while unset; BuilderDemo gives the built one |
| DesignPatterns.BuilderDemo | 40_design_patterns.py:422-430 | the chained calls give "Computer: CPU=Intel i7, Memory=16GB, Storage=512GB SSD" |
| DesignPatterns.Proxy.constructor | 40_design_patterns.py:450-451 | no real subject yet |
| DesignPatterns.Proxy.Request | 40_design_patterns.py:453-456 | the real subject is created on the first request only; later requests reuse it |
| DesignPatterns.RealSubject.Request | 40_design_patterns.py:445-446 | "RealSubject: Handling request", which the proxy passes on |
| DesignPatterns.ProxyDemo | 40_design_patterns.py:459-461 | two requests give the real subject's answer through the same subject |
| Protocols.Describe | 33_protocols_and_abc.py:28-30 | speak(), then " and ", then move() |
| Protocols.DescribeDemo | 33_protocols_and_abc.py:36-55 | "Woof! and runs" for Dog and "Meow! and walks" for Cat |
| Protocols.ProductOrder | 33_protocols_and_abc.py:188-192 | equality and < compare prices only; equality is symmetric; < is asymmetric and total with equality; both are false against a non-Product |
| Protocols.ProductEq | 33_protocols_and_abc.py:188-189 | `__eq__`: true only against a Product of the same price; ProductOrder states its laws |
| Protocols.ProductLt | 33_protocols_and_abc.py:191-192 | `__lt__`: true only against a Product of a higher price; ProductOrder states its laws |
| Protocols.ProductToString | 33_protocols_and_abc.py:194-195 | `__str__`: "name: $price"; ProductToStringDemo gives the Mouse |
| Protocols.MinIndexFrom | 33_protocols_and_abc.py:177-179 | the scan of min keeps the first item of least price |
| Protocols.FindMin | 33_protocols_and_abc.py:177-179 | ValueError exactly for the empty list; otherwise the first product of least price |
| Protocols.FirstMinimumUnique | 33_protocols_and_abc.py:177-179 | there is only one first minimum |
| Protocols.FindMinDemo | 33_protocols_and_abc.py:197-204 | the Mouse at 25 is chosen over 999 and 75 |
| Protocols.ProductToStringDemo | 33_protocols_and_abc.py:194-195 | the Mouse shows as "Mouse: $25" |
| Protocols.CountdownValues | 33_protocols_and_abc.py:219-233 | n, n−1, …, 1, of length n, and nothing for n ≤ 0 |
| Protocols.CountdownValuesStep | 33_protocols_and_abc.py:228-233 | each value is one less than the one before, and all are positive |
| Protocols.CountdownIterator.constructor | 33_protocols_and_abc.py:222-223 | current starts at the start value |
| Protocols.CountdownIterator.Iter | 33_protocols_and_abc.py:225-226 | the iterator is its own iterator |
| Protocols.CountdownIterator.Next | 33_protocols_and_abc.py:228-233 | StopIteration once current ≤ 0; otherwise current is returned and drops by exactly 1 |
| Protocols.Drain | 33_protocols_and_abc.py:235-238 | a for loop over the iterator collects exactly the countdown values and leaves it exhausted |
| Protocols.Countdown.constructor | 33_protocols_and_abc.py:212-213 | remembers the start |
| Protocols.Countdown.Iter | 33_protocols_and_abc.py:215-217 | every loop gets a new iterator starting from start |
| Protocols.CountdownDemo | 33_protocols_and_abc.py:235-238 | two loops over Countdown(5) both give 5, 4, 3, 2, 1 |
| Protocols.File.constructor | 33_protocols_and_abc.py:305-306 | the initial content |
| Protocols.File.Write | 33_protocols_and_abc.py:311-312 | the content is replaced by the data, so read returns the last data written |
| Protocols.File.Read | 33_protocols_and_abc.py:308-309 | the current content, so after Write it is the data last written |
| Protocols.FileDemo | 33_protocols_and_abc.py:314-325 | after write_file the read gives "Hello, World!" |
| IteratorProtocol.CountDown.constructor | 56_iterator_protocol.py:19-20 | current starts at the start value |
| IteratorProtocol.CountDown.Iter | 56_iterator_protocol.py:22-23 | `__iter__` returns the object itself |
| IteratorProtocol.CountDown.Next | 56_iterator_protocol.py:25-30 | StopIteration once current ≤ 0; otherwise current is returned and drops by exactly 1 |
| IteratorProtocol.ForLoop | 56_iterator_protocol.py:32-35 | a for loop yields current, current−1, …, 1 and leaves the object exhausted |
| IteratorProtocol.CountDownDemo | 56_iterator_protocol.py:32-35 | CountDown(5) yields 5, 4, 3, 2, 1; a second loop over it yields nothing |
| IteratorProtocol.NonPositiveStart | 56_iterator_protocol.py:25-27 | a start ≤ 0 yields nothing |
| Generators.SimpleGenerator | 21_generators.py:12-21 | exactly 1, 2, 3 |
| Generators.GetSquaresGen | 21_generators.py:33-36 | i² for every i in range(n), so n values (none for n ≤ 0) |
| Generators.GetSquares | 21_generators.py:25-30 | the list the loop builds is what the generator yields |
| Generators.GetSquaresDemo | 21_generators.py:38-41 | both give 0, 1, 4, 9, 16 for n = 5 |
| Generators.Generator.Next | 21_generators.py:91-95 | the next value not yet yielded, then StopIteration once all have been |
| Generators.NumberGenerator | 21_generators.py:86-89 | 10, 20, 30 |
| Generators.NumberGeneratorDemo | 21_generators.py:91-95 | three next() calls give 10, 20, 30; a fourth raises StopIteration |
| Generators.InfiniteCounter.Next | 21_generators.py:70-75 | returns count and then increments it |
| Generators.FirstValues | 21_generators.py:78-81 | the first k values of a fresh counter are 0..k−1 |
| Generators.InfiniteCounterDemo | 21_generators.py:78-81 | the first five values are 0, 1, 2, 3, 4 |
| Generators.Numbers | 21_generators.py:126-128 | 0..n−1 |
| Generators.Squares | 21_generators.py:130-132 | same length, each item squared |
| Generators.Evens | 21_generators.py:134-137 | the even items in their order, as the generator yields them; EvensMembers, EvensAppend and EvensOfEvens state what it keeps |
| Generators.EvensMembers | 21_generators.py:134-137 | evens keeps exactly the even items and never adds any |
| Generators.EvensAppend | 21_generators.py:134-137 | evens works item by item in order: filtering a concatenation concatenates the filtered parts |
| Generators.EvensOfEvens | 21_generators.py:134-137 | a list of even items passes unchanged, so evens is idempotent |
| Generators.PipelineDemo | 21_generators.py:139-141 | evens(squares(numbers(10))) is [0, 4, 16, 36, 64] |
| Profiling.FastFunction | 41_profiling.py:51-53 | the squares of 0..999 |
| Profiling.SlowFunction | 41_profiling.py:44-49 | the appending loop builds the comprehension's list |
| Profiling.FastListCreation | 41_profiling.py:148-149 | the doubles of 0..999 |
| Profiling.SlowListCreation | 41_profiling.py:142-146 | the appending loop builds the comprehension's list |
| Profiling.RangeSumFormula | 41_profiling.py:167-168 | sum(range(n)) is n(n−1)/2 |
| Profiling.FastSum | 41_profiling.py:167-168 | sum(range(1000)) is 499500 |
| Profiling.SlowSum | 41_profiling.py:161-165 | the accumulating loop gives the builtin's sum |
| Profiling.FibonacciUncached | 41_profiling.py:185-189 | the tree recursion, with numbers below 2 their own value; FibonacciUncachedAgrees ties it to the recursion lesson |
| Profiling.FibonacciUncachedAgrees | 41_profiling.py:185-189 | fibonacci_uncached(n) is the recursion lesson's Fibonacci for n ≥ 0 |
| Profiling.FibonacciCache.Fibonacci | 41_profiling.py:178-183 | returns the uncached value, caches it, keeps every earlier entry, and every cached entry stays correct |
| Profiling.FibonacciCached | 41_profiling.py:178-189 | fibonacci_cached(n) equals fibonacci_uncached(n) for every n, and Fibonacci(n) for n ≥ 0 |
| Profiling.DigitCount | 41_profiling.py:200-213 | len(str(i)) is 1 below 10, 2 below 100 and 3 below 1000 |
| Profiling.DigitLengthsCount | 41_profiling.py:200-213 | entry i of the list is the number of decimal digits of i |
| Profiling.DigitLengthsLoop | 41_profiling.py:200-213 | slow_global and fast_local build the same list of digit counts |
| Profiling.JoinEmptySnoc | 41_profiling.py:224-229 | adding one more string to the result extends the join by exactly that string |
| Profiling.FastStringConcat | 41_profiling.py:231-233 | the decimal strings of 0..99 joined with no separator; SlowStringConcat builds the same string |
| Profiling.SlowStringConcat | 41_profiling.py:224-233 | the `+=` loop builds the string "".join gives |
| Profiling.JoinEmptyAppend | 41_profiling.py:231-233 | joining with the empty separator distributes over concatenation of the parts |
| Profiling.SumOfSquaresFormula | 41_profiling.py:93-98 | the sum of i² for i < n is (n−1)n(2n−1)/6 |
| Profiling.ExampleFunction | 41_profiling.py:93-98 | the loop's total is the sum of i² for i < n |
| Profiling.ExampleFunctionDemo | 41_profiling.py:93-98 | for n = 1000 the total is 332833500 |
| Caching.ExpensiveFunction | 65_caching_strategies.py:17-18 | the sum of the generator of squares; ExpensiveFunctionValue gives its closed form |
| Caching.ExpensiveFunctionValue | 65_caching_strategies.py:16-18 | expensive_function(n) is the sum of i² for i < n, with the closed form (n−1)n(2n−1)/6 |
| Caching.ExpensiveFunctionDemo | 65_caching_strategies.py:16-18 | expensive_function(1000) is 332833500 |
| Caching.Cache.constructor | 65_caching_strategies.py:28 | the cache starts empty |
| Caching.Cache.CachedFunction | 65_caching_strategies.py:30-33 | a present key is answered from the cache, which is unchanged; a new key stores key² and returns it |
| Caching.CachedSquare | 65_caching_strategies.py:30-33 | on a cache of squares the result is key², it is stored, other entries are kept, and the cache stays one of squares |
| Caching.CachedTwice | 65_caching_strategies.py:31 | a second call with the same key returns the same value and leaves the cache as the first call left it |
| Caching.CachingDemo | 65_caching_strategies.py:35-36 | from an empty cache, cached_function(5) is 25 and the cache holds one entry |
| Descriptors.StorageName | 39_descriptors.py:55-57 | the storage name is "_" followed by the attribute name |
| Descriptors.StorageNameInjective | 39_descriptors.py:55-57 | different descriptors never share storage |
| Descriptors.ValidatedDescriptor.constructor | 39_descriptors.py:52-57 | named after its attribute, stored under "_" + name |
| Descriptors.ValidatedDescriptor.Set | 39_descriptors.py:64-67 | stores exactly a non-negative int (True counts) and leaves the rest of the instance alone; anything else raises ValueError and keeps the previous value |
| Descriptors.ValidatedDescriptor.Get | 39_descriptors.py:59-62 | `__get__` on an instance: the stored value or None; ValidatedUnset and ValidatedDemo read it |
| Descriptors.ProductType.constructor | 39_descriptors.py:69-71 | the price and quantity descriptors, named after their attributes |
| Descriptors.ProductType.New | 39_descriptors.py:73-75 | construction succeeds exactly when both values are non-negative ints, which are then read back; a bad price raises the price's ValueError first, and a good price with a bad quantity raises the quantity's ValueError |
| Descriptors.ValidatedDemo | 39_descriptors.py:77-83 | Product(10, 5) holds 10 and 5; `price = -5` raises ValueError and the price stays 10 |
| Descriptors.ValidatedUnset | 39_descriptors.py:59-62 | a get before any set is None |
| Descriptors.CachedProperty.constructor | 39_descriptors.py:150-152 | the function and its name, nothing evaluated yet |
| Descriptors.CachedProperty.Get | 39_descriptors.py:154-164 | with a cached value, returns it without evaluating; otherwise evaluates func once, stores it under the cache name and returns it |
| Descriptors.ExpensiveComputation | 39_descriptors.py:173-176 | the sum of the squares of `self.data`; CachedPropertyDemo gives 55 for [1, 2, 3, 4, 5] |
| Descriptors.CachedPropertyDemo | 39_descriptors.py:166-180 | two accesses give 55 and evaluate once |
| Descriptors.CachedRepeated | 39_descriptors.py:158-164 | once cached, any number of accesses return the cached value, evaluate nothing and change nothing |
| Descriptors.TypedDescriptor.constructor | 39_descriptors.py:188-195 | the expected type and the name set by `__set_name__` |
| Descriptors.TypedDescriptor.Set | 39_descriptors.py:202-207 | stores exactly the values of the expected type; other values raise TypeError naming the type and keep the previous value |
| Descriptors.TypedDescriptor.Get | 39_descriptors.py:197-200 | `__get__` on an instance: the stored value or None; PersonDemo reads the kept age |
| Descriptors.PersonDemo | 39_descriptors.py:209-223 | Person("Alice", 30); `age = "thirty"` raises TypeError and the age stays 30 |
| Descriptors.LazyProperty.constructor | 39_descriptors.py:231-233 | the function and its name, nothing evaluated yet |
| Descriptors.LazyProperty.Get | 39_descriptors.py:235-242 | evaluates func and stores the value on the instance under the property's name |
| Descriptors.LoadConfig | 39_descriptors.py:251-254 | the settings `{"key": "value", "setting": True}` the property loads |
| Descriptors.LoadLazy | 39_descriptors.py:235-242 | once the value is stored, the instance attribute wins and func is not evaluated again |
| Descriptors.LazyPropertyDemo | 39_descriptors.py:244-259 | the config is loaded on the first access only, and both accesses give the same settings |
| Descriptors.ObservableDescriptor.constructor | 39_descriptors.py:267-270 | named after its attribute, with no observers |
| Descriptors.ObservableDescriptor.AddObserver | 39_descriptors.py:286-288 | the callback is appended to the descriptor's own list |
| Descriptors.Call | 39_descriptors.py:290-292 | the line `notify` prints: "attr changed from old to new" |
| Descriptors.ObservableDescriptor.Set | 39_descriptors.py:277-284 | the value is stored; every observer is called in order with the old and new value when they differ under `!=`, and none is called otherwise |
| Descriptors.ObservableDescriptor.Get | 39_descriptors.py:272-275 | `__get__` on an instance: the stored value or None, the old value Set reports |
| Descriptors.ObservableModelType.constructor | 39_descriptors.py:294-295 | one shared price descriptor with no observers |
| Descriptors.ObservableModelType.New | 39_descriptors.py:297-299 | every construction registers notify once more on the shared descriptor |
| Descriptors.ObservableDemo | 39_descriptors.py:301-303 | None → 10 and 10 → 20, each reported once |
| Descriptors.ObservableUnchanged | 39_descriptors.py:282-284 | setting the value already held notifies nobody |
| Descriptors.ObservableTwoModels | 39_descriptors.py:286-299 | after two constructions a change is reported twice |
| Descriptors.NamedDescriptor.constructor | 39_descriptors.py:312-316 | the owner's and the attribute's names from `__set_name__` |
| Descriptors.NamedDescriptor.Set | 39_descriptors.py:324-325 | stores the value without any check |
| Descriptors.NamedDescriptor.Get | 39_descriptors.py:319-322 | `__get__` on an instance: the stored value or None; NamedDemo reads both cases |
| Descriptors.NamedDemo | 39_descriptors.py:328-333 | attr1 set to "value1" reads back; attr2, never set, reads None |
| Metaclasses.MyMetaCreate | 38_metaclasses.py:42-66 | with "add_prefix" the namespace is rebuilt with the method names prefixed; without it the namespace is used unchanged; either way `_meta_created` is set to True |
| Metaclasses.RenamedPrefix | 38_metaclasses.py:52-55 | a renamed key starts with "prefixed_" exactly when the original was a "method_" name |
| Metaclasses.RenameKeyInjective | 38_metaclasses.py:52-57 | the renaming never sends two names to one |
| Metaclasses.RenamedKeeps | 38_metaclasses.py:50-58 | every attribute is found under its renamed key with its value |
| Metaclasses.MyMetaDemo | 38_metaclasses.py:69-75 | MyClass keeps method_test and gets `_meta_created` |
| Metaclasses.SingletonMeta.constructor | 38_metaclasses.py:83 | no instances yet |
| Metaclasses.SingletonMeta.Call | 38_metaclasses.py:85-89 | the first call per class builds an instance with the given value; later calls return it and ignore their arguments |
| Metaclasses.SingletonDemo | 38_metaclasses.py:91-101 | `s1 is s2` and `s2.value` is "first" |
| Metaclasses.RegistryMeta.constructor | 38_metaclasses.py:109 | an empty registry |
| Metaclasses.ClassLookup | 38_metaclasses.py:116-117 | `hasattr`/`getattr` on a class: found exactly when the class or one of its bases binds the name; the class's own binding wins, otherwise the first base in resolution order that binds it |
| Metaclasses.RegistryMeta.New | 38_metaclasses.py:111-120 | the class is created unchanged; one with a registry_key, its own or inherited, is recorded under it, replacing an earlier entry; one without leaves the registry alone |
| Metaclasses.RegistryDemo | 38_metaclasses.py:122-133 | PluginA and PluginB are registered under "plugin_a" and "plugin_b", in that order; a subclass of PluginA with no key of its own then takes over "plugin_a" |
| Metaclasses.RegistryOverwrite | 38_metaclasses.py:116-118 | a later class with the same key takes the entry over; other entries are untouched |
| Metaclasses.ValidatedNew | 38_metaclasses.py:141-156 | the class is created exactly when it defines both required attributes; otherwise TypeError naming the first one missing |
| Metaclasses.ValidatedDemo | 38_metaclasses.py:158-165 | InvalidClass fails on required_method; ValidClass is created |
| Metaclasses.DerivedMetaNew | 38_metaclasses.py:205-213 | DerivedMeta's tag, then BaseMeta's through super(); DerivedIsTaggedBase gives the result |
| Metaclasses.BaseMetaNew | 38_metaclasses.py:205-208 | `_meta_tag` set to "base"; DerivedIsTaggedBase shows a DerivedMeta class ends the same |
| Metaclasses.DerivedIsTaggedBase | 38_metaclasses.py:205-222 | DerivedMeta's tag is overwritten by BaseMeta's, so a derived class is tagged "base" exactly as a base one |
| Metaclasses.ModelMetaNew | 38_metaclasses.py:263-274 | the namespace with `_fields` and `_table_name` added; FieldsExactly and ModelMetaAttributes give their values |
| Metaclasses.FieldsExactly | 38_metaclasses.py:263-268 | `_fields` holds exactly the Field-valued attributes |
| Metaclasses.ModelMetaAttributes | 38_metaclasses.py:263-274 | the created class gets its fields and its table name: the given table_name, else the lower-cased class name |
| Metaclasses.UserDemo | 38_metaclasses.py:285-292 | User has table "users" and the fields name and age, in that order |
| Metaclasses.ModelDemo | 38_metaclasses.py:281-283 | the base Model, with no table_name, maps to "model" |
| PyCore.IntToString | 32_type_hints.py:208-209 | str() of an int is non-empty and starts with a minus sign exactly for negatives |
| PyCore.ParseIntToString | 32_type_hints.py:208-209 | int(str(i)) is i |
| PyCore.IntToStringInjective | 32_type_hints.py:208-209 | different ints print differently |
| PyCore.NatToStringLength | 41_profiling.py:200-213 | a number printed with d digits lies below 10^d, and at or above 10^(d−1) once it is 10 or more |
| PyCore.ParseInt | 48_debugging.py:235-242 | int() of a string either succeeds or raises ValueError |
| PyCore.ParseIntUnicodeSpace | 48_debugging.py:235-242 | int() skips Python's separator and non-ASCII whitespace as well: "\x1c5" and "\u00a05\u3000" give 5 |
| PyCore.ParseIntRejectsLetter | 28_exception_types.py:167-171 | a string starting with anything but whitespace, a sign or a digit is refused |
| PyCore.IntOf | 50_configuration_management.py:176 | int() of an int or a bool is its value, of a string its parse; None and lists raise TypeError |
| PyCore.Lower | 40_design_patterns.py:46 | lower() maps each character by itself and keeps the length |
| PyCore.LowerIdempotent | 40_design_patterns.py:46 | lowering twice is lowering once |
| PyCore.Get | 32_type_hints.py:55-56 | dict.get finds a value exactly when the key is present, and it is the value stored with that key |
| PyCore.PutGet | 50_configuration_management.py:175-177 | after `d[key] = value`, key holds value and every other key is unchanged |
| PyCore.UpdateGet | 50_configuration_management.py:172 | after `d.update(items)` a key has the value from items when it is there, and its old value otherwise |

## Left out

- Protocols.Product: prices are integers. The annotation says `float`, but the lesson's prices are whole numbers, and float comparison is not modelled.
- Printing and input: most of what the lessons print is returned as strings or lines. The `input()` calls, file and environment reads are parameters or are not modelled.
- Debugging.CalculateTotal: the DEBUG trace lines `calculate_total` prints (48_debugging.py:22-29) are dropped; only the total is returned.
- Descriptors.CachedProperty.Get and Descriptors.LazyProperty.Get: the "Computing..." and "Loading config from …" prints (39_descriptors.py:175, 39_descriptors.py:253) are replaced by an `evaluations` counter, which records whether the function ran.
- Metaclasses.MyMetaCreate: the "Creating class" print of `MyMeta.__new__` (38_metaclasses.py:47) is dropped.
- Descriptors.NamedDescriptor.constructor: the print in `NamedDescriptor.__set_name__` (39_descriptors.py:317) is dropped.
- Floating point: `Circle`, `Temperature`, the coordinates of 32_type_hints.py and the other float demos are not modelled.
- ErrorHandling.Divide: the quotient is an exact `real`, not a rounded float.
- The demos of built-in exceptions, chaining, `finally` and `else` in 14_error_handling.py and 28_exception_types.py print only; they are not modelled beyond `handle_exception`.
- Recursion.Power: requires a non-negative exponent, because the source recursion never reaches its base case for a negative one.
- Recursion.BinarySearch: requires low ≥ 0 and high < len(arr) (the default high is handled by Recursion.Search), because the lesson never passes negative or out-of-range indices.
- The n ≤ 0 case of `tower_of_hanoi` is excluded, because it recurses without end.
- TypeHints.Process: requires an int or a string, as its annotation says; `len()` of other values is not modelled.
- The typing-only constructs of 32_type_hints.py (`greet`, `process_id`, `apply_operation`, `process_data`, `process_status`, `Literal`, `Final`, the overload stubs) are not modelled. They demonstrate annotations, not behaviour.
- DateTime.CalculateAge: today's date is a parameter. Dates are year, month and day numbers; calendar validity is not checked, because the computation only compares them.
- `strftime`, `strptime`, timedelta arithmetic and time zones are not modelled; they are library behaviour.
- Config: the environment is a map and the parsed JSON file an optional dictionary. `os.path.exists` and `json.load` are not modelled.
- Nested JSON values beyond the database section are not modelled.
- The INI and .env parts of 50_configuration_management.py are not modelled.
- The `AppConfig` singleton is not modelled; it only wraps `load_config`.
- PyCore.ParseInt: Python's digit-group underscores and non-ASCII digits are not accepted.
- ClassesObjects.BankAccount.constructor: the default `balance=0` is not a separate constructor; callers pass the opening balance.
- Protocols.File.constructor: the default content `""` is not a separate constructor; callers pass the content.
- Debugging.ProcessAge: the model always raises AssertionError; under `python -O` the `assert` statements are removed and the checks do not happen.
- PyCore.Lower: ASCII only; Unicode case mapping is not modelled.
- The bool-is-int rule of Python is kept instead of typed away. `isinstance(True, int)` holds, so True passes `validate_config`'s port check as 1, `validate_age` as 1 and the non-negative validator.
- `lru_cache`: its eviction (maxsize) and `cache_info()` are not modelled. The memo is an unbounded map.
- Timing, `timeit`, `cProfile`, `pstats` and the profiling decorators are not modelled.
- Descriptors: access through the class (`obj is None`) is not modelled. Neither is `hasattr`'s lookup of class attributes: the instance dictionary alone decides.
- Descriptors.CachedProperty: the cached function is a total function of the instance dictionary. The lesson's `sum(x ** 2 …)` over data that is not a list of ints gives None in the model instead of raising.
- Metaclasses: the class namespace is an ordered dictionary of attribute descriptions.
- `LoggingMeta`, the printing metaclasses and the `type()` construction are not modelled.
- Metaclasses.SingletonMeta.Call: instances are keyed by class name.
- Metaclasses.RegistryMeta.New: the registry maps each key to a class name. The bases' method resolution order is given as a list of namespaces; the C3 linearisation that computes it is not modelled.
- The itertools lines of 56_iterator_protocol.py are not modelled; they demonstrate the standard library.
- `echo_generator` (send) and `read_large_file` in 21_generators.py are not modelled; they need send() and file I/O.
- The concurrency, network, serialization, database, logging and testing lessons are not modelled. They are not sequential computation, or they only call libraries.
