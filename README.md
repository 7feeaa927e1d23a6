# Iterators, generators and class-level members of a Python study-notes file

The repository is a set of Python study notes; its executable parts are small
demonstrations of language features. This project models the ones with
behaviour that can be stated precisely:

- **`Iterator`** (module `Iterators`): a cursor over a list with a `data` field
  and an `index` field. `next` hands out `data[index]` and advances `index`;
  once `index` has reached `len(data)` it raises `StopIteration`. The Dafny
  class `Iterators.Iterator` keeps both fields; `Next` returns the datatype
  `Output` (`Item(v)` or `Exhausted`) in place of raising. Beside the class,
  the pure functions `Step` (one call) and `Calls` (n calls in a row) describe
  the same cursor as a value, and the lemmas about them give the observable
  trace: the elements in order, then exhaustion forever.
- **`generator`** (module `Iterators`): a `for item in array: yield item` loop,
  modelled as the function `Generator` giving the sequence of yielded values.
  The file defines it twice, identically (lines 123-125 and 277-279, the second
  naming its parameter `data`); one function models both. A lemma shows that a
  fresh `Iterator` over the same list hands out, through explicit `next` calls,
  exactly the values the generator yields.
- **`MyClass.static_method`** and **`ParentClass.increment_class_variable`**
  (module `ClassMethods`): a sum that reads no state, and a class-level counter
  that starts at 0 and goes up by one per call. One object of the Dafny class
  `ParentClass` stands for the Python class object that holds `class_variable`.
- **The second `MyClass`'s `__call__`** (module `CallHook`): `self.name * x`,
  Python's string repetition, which gives the empty string for `x <= 0`,
  modelled on an instance that holds `name` (see "Left out" on how such an
  instance comes to exist).

The class in the source names its step method `next`, not `__next__`, so under
Python 3 (which the file needs elsewhere) only explicit `obj.next()` calls
behave as modelled; a `for` loop over an `Iterator` object raises `TypeError`.
The model covers explicit calls of `next`.

## Model

| member | source | states |
|---|---|---|
| `Iterators.Step` | python_qus.py:82-87 | one `next` call as a value: it hands out an element exactly when `index < len(data)`, that element is `data[index]` and the index then grows by one; otherwise the index stays; an index inside the list stays inside it |
| `Iterators.Calls` | python_qus.py:82-87 | `n` successive `next` calls give `n` outputs; every element handed out is `data[index + i]` for its position `i`; from at or past the end all are exhaustion; after the first exhaustion every later output is exhaustion too |
| `Iterators.Generator` | python_qus.py:123-125 | `generator(array)` (and its duplicate at lines 277-279) yields as many values as `array` has elements; which values, in which order, is stated by `Iterators.GeneratorYieldsArray` |
| `Iterators.Iterator.constructor` | python_qus.py:75-77 | a new iterator keeps the given list unchanged and starts with `index == 0`, so everything is still to be handed out |
| `Iterators.Iterator.Next` | python_qus.py:82-87 | at or past the end: returns `Exhausted`, `index` unchanged; otherwise returns `data[index]` and raises `index` by exactly one; never changes `data`; keeps `index <= len(data)`; the remaining elements lose exactly the one returned |
| `Iterators.ExhaustionRepeats` | python_qus.py:83-84 | once the cursor is at or past the end, every one of any number of further calls signals exhaustion |
| `Iterators.CallsInOrder` | python_qus.py:85-87 | while the cursor stays inside the list, n calls return the next n elements of the list in order |
| `Iterators.CallsDrain` | python_qus.py:82-87 | from any cursor position, as many calls as elements remain return exactly those elements in order, and every call after that signals exhaustion |
| `Iterators.Drain` | python_qus.py:82-87 | calling `next` explicitly until it raises `StopIteration` yields exactly the elements still ahead of the cursor, in order, and leaves the cursor at the end of an unchanged list |
| `Iterators.IterateFresh` | python_qus.py:90 | explicit `next` calls on a freshly built iterator give back its whole list in order (the same values `generator` yields), and one more `next` signals exhaustion |
| `Iterators.GeneratorYieldsArray` | python_qus.py:123-125 | `generator(array)` yields every element of `array` exactly once, in order, and nothing else |
| `Iterators.IteratorMatchesGenerator` | python_qus.py:74-87 | `len(data)` explicit calls of `next` on a fresh iterator return exactly the values `generator(data)` (lines 123-125) yields, and any number of further calls signal exhaustion |
| `ClassMethods.StaticMethod` | python_qus.py:202-204 | the result is the sum of the arguments: subtracting either argument gives back the other; it reads no object or class state |
| `ClassMethods.ParentClass.constructor` | python_qus.py:212-213 | `class_variable` starts at 0 |
| `ClassMethods.ParentClass.IncrementClassVariable` | python_qus.py:215-217 | raises `class_variable` by exactly one and changes nothing else |
| `ClassMethods.IncrementFresh` | python_qus.py:212-217 | on a freshly defined class, one call takes `class_variable` from 0 to 1 |
| `CallHook.Repeat` | python_qus.py:250 | `s * x` has `len(s) * x` characters for positive `x` and none for `x <= 0` |
| `CallHook.RepeatAt` | python_qus.py:250 | character `i` of `s * x` is character `i % len(s)` of `s` |
| `CallHook.RepeatAdd` | python_qus.py:250 | `s * (a + b) == s * a + s * b` for non-negative `a` and `b` |
| `CallHook.MyClass.Call` | python_qus.py:245-250 | calling an instance with `x` returns the stored name repeated `x` times: length `len(name) * x` for positive `x`, empty for `x <= 0`, the name itself for `x == 1`, cycling through the name character by character |

## Left out

- `FileIterator` (lines 97-114): its behaviour comes from opening, reading and closing a real file, which is I/O.
- `Iterator.__iter__` (lines 79-80) only returns the object itself; the model's methods are called on the cursor directly.
- `Iterators.Drain`: models repeated explicit `obj.next()` calls until `StopIteration`, not a `for` loop; because the class defines `next` and not `__next__`, a `for` loop over the object (as at line 92) raises `TypeError` in Python 3, and so does the built-in `next(obj)`; the same holds for `Iterators.IterateFresh` and `Iterators.IteratorMatchesGenerator`, which compare values handed out, not the ability to be looped over.
- `Iterators.Iterator`: the Python object holds a reference to the caller's list, so a list changed by someone else during iteration would be seen (and could leave `index` past the end); the model stores the list as an immutable sequence, so that aliasing is not captured.
- `Iterators.Generator`: likewise sees its input as an immutable sequence, and models the values yielded, not the suspend/resume of the generator object or its single use.
- Shallow and deep copy (lines 157-166): calls into Python's `copy` library.
- `sys.getsizeof` sizes (lines 258-259, 271-274): interpreter-specific byte counts.
- The decorators `simple_dec` and `Mydec` (lines 298-322) and the `print` calls in `MyClass.__new__` and `__init__` (lines 242 and 246): their only effect is printed output.
- `CallHook.MyClass.Call`: under Python 3 the ordinary construction `MyClass("John Doe")` (line 253) raises `TypeError`, because the overriding `__new__` passes `name` on to `object.__new__` (line 243), so `__init__` never runs; the datatype value stands for an instance that already holds `name` (for example one made by `object.__new__(MyClass)` followed by `__init__`), and `__call__` is modelled on such an instance.
- The multiprocessing pool (lines 357-368): concurrency, and `calculate_square` returns nothing.
- The code inside the docstring at lines 186-191: garbled prose, not code.
- `ClassMethods.StaticMethod`: modelled on integers only; Python's `+` also concatenates strings and lists.
- `ClassMethods.ParentClass.IncrementClassVariable`: models the call on `ParentClass` itself; called through a subclass, Python would create the subclass's own attribute instead of updating the parent's.
- `CallHook.MyClass.Call`: `name` is modelled as a string; Python would also repeat a list or tuple the same way. The count `x` is an unbounded integer here, while CPython first converts it to a machine-sized index: a count that does not fit (such as `-(2**64)` or `2**64`, even for an empty name) raises `OverflowError`, and so does a result longer than `sys.maxsize`; the model returns a string on those inputs instead. The same applies to `CallHook.Repeat`.
