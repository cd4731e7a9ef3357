# Todo list data model and `tripleFactorial`, in Dafny

This project models two small sequential parts of a PyQt5 tutorial repository.

**The todo data model** (`todo_app/todo_item.py`, `todo_app/todo_data.py`):

- A `TodoItem` is an object with four fields: `text`, `completed`, `created_at` and `completed_at`.
- `toggle_completed`, `mark_completed` and `mark_incomplete` change the flag and the completion time in place.
- `to_dict` and `from_dict` map an item to and from a plain key/value form.
- A `TodoData` store owns an ordered list of references to items. It can add an item, remove an item by identity, copy the list, filter it into completed and pending items, count, clear the completed items, clear everything, and look an item up by text regardless of case.

**`tripleFactorial`** (`ques2.java`) multiplies `n`, `n-3`, `n-6`, … and reduces modulo 1000000007 after each step. It does this in Java 32-bit `int` arithmetic.

Files:

- `wrappers.dfy`: `Option` (Python's `None`) and `Result` (a value or a raised error).
- `timestamps.dfy`: timestamps and a stand-in for their ISO text form.
- `todo_item.dfy`, module `TodoItems`: the item.
  - Each transition is a function on the value `ItemState`.
  - The class `TodoItem` has methods whose new state is that function of the old state.
  - The module also holds the key/value form and its decoder.
- `todo_data.dfy`, module `TodoStore`: the store.
  - `Completed` and `Pending` are the two filters over a list of items.
  - `RemoveFirst` is `list.remove`, together with the miss case that `remove_todo` catches: on a miss it returns the list unchanged.
  - `Lower` is the case fold.
  - The class `TodoData` has the field `todos: seq<TodoItem>`.
  - `ClearCompletedScenario` and `LookupScenario` are usage scenarios of the store: a clear of completed entries and a case-insensitive lookup.
- `ques2.dfy`, module `TripleFactorial`:
  - `Wrap32` is the wrap to 32 bits. `JavaRem` is Java's truncating `%`.
  - `TripleFactorial` is the loop as written. `Run` is that loop as a function.
  - `Product` is the product the loop means to compute.
  - `TripleFactorialLong` is the loop with the product taken in `long`.

The store's getters and counts (`GetCompletedTodos`, `GetPendingTodos`, `GetTodoCount`, `GetCompletedCount`, `GetPendingCount`, `Length`) are functions over `todos`. Each states its own bounds, and the lemmas about `Completed` and `Pending` below state the rest.

Two points are easy to misread in the code, and the model states them as written:

- Removal compares items by identity, not by structural equality, because `TodoItem` defines no `__eq__`.
- The invariant "`completed_at` is set iff `completed`", which `toggle_completed` maintains (`todo_app/todo_item.py:34-38`), is not kept by every path. `TodoItem(text, True)` and `from_dict` can both produce a completed item with no completion time. `from_dict` with `completed: False` and a parseable `completed_at` produces the reverse: an incomplete item that has a completion time, which `mark_incomplete` then leaves as it is (`todo_app/todo_item.py:48`). `TransitionsPreserveConsistency` and `DecodeItem` state exactly when the transitions and the decoder give a consistent item.

## Model

| member | source | states |
|---|---|---|
| `TodoItems.TodoItem.constructor` | todo_app/todo_item.py:17-28 | The new item has the given text and flag (the flag defaults to false), `created_at` is the clock reading, and `completed_at` is `None`. The invariant therefore holds iff the item is not completed. |
| `TodoItems.Toggled` | todo_app/todo_item.py:30-38 | The flag flips. Afterwards `completed_at` is set iff `completed`, and when set it is the clock reading. Text and `created_at` are unchanged. |
| `TodoItems.TodoItem.ToggleCompleted` | todo_app/todo_item.py:30-38 | The item's new fields are `Toggled` of its old fields. |
| `TodoItems.MarkedCompleted` | todo_app/todo_item.py:40-44 | Afterwards the item is completed. A completed item is left exactly as it was, `completed_at` included. Otherwise `completed_at` becomes the clock reading. Text and `created_at` are unchanged. |
| `TodoItems.TodoItem.MarkCompleted` | todo_app/todo_item.py:40-44 | The item's new fields are `MarkedCompleted` of its old fields. |
| `TodoItems.MarkedIncomplete` | todo_app/todo_item.py:46-50 | Afterwards the item is not completed. A completed item loses its `completed_at`. An incomplete item is left exactly as it was. Text and `created_at` are unchanged. |
| `TodoItems.TodoItem.MarkIncomplete` | todo_app/todo_item.py:46-50 | The item's new fields are `MarkedIncomplete` of its old fields. |
| `TodoItems.ToggleTwice` | todo_app/todo_item.py:30-38 | Toggling twice restores the flag. From an incomplete item it also leaves `completed_at` as `None`. From a consistent incomplete item it restores every field. |
| `TodoItems.MarkCompletedIdempotent` | todo_app/todo_item.py:40-44 | Marking completed a second time changes nothing, whatever the clock reads. |
| `TodoItems.MarkIncompleteIdempotent` | todo_app/todo_item.py:46-50 | Marking incomplete a second time changes nothing. |
| `TodoItems.TransitionsPreserveConsistency` | todo_app/todo_item.py:30-50 | Toggling establishes the invariant from any state. Marking completed gives a consistent item iff the item was incomplete or already consistent. Marking incomplete gives a consistent item iff the item was completed or already consistent. |
| `TodoItems.TodoItem.ToString` | todo_app/todo_item.py:52-55 | The string is a status character, a space, then the text. The status is a check mark iff the item is completed and a circle iff it is not. |
| `TodoItems.TodoItem.ToDict` | todo_app/todo_item.py:61-71 | The key/value form has exactly the keys `text`, `completed`, `created_at` and `completed_at`. `completed_at` maps to `None` iff the item has no completion time. |
| `TodoItems.ParseTimestamp` | todo_app/todo_item.py:80-82 | Parsing succeeds iff the value is a string in the timestamp text form. A non-string is a `TypeError` and malformed text is a `ValueError`. |
| `TodoItems.DecodeItem` | todo_app/todo_item.py:73-83 | Decoding succeeds iff all four keys are present, text is a string, the flag is a boolean, `created_at` parses, and `completed_at` is falsy or parses. A failure raises the error of the first check that fails, in the order the keys are read: `KeyError` naming the missing key, `TypeError`, or the parse error. On success, text and flag come from their keys and `created_at` is the parsed timestamp. A completion time is present iff the `completed_at` value is truthy, and it is then that value parsed. The decoded item is consistent iff `completed_at` is truthy exactly when `completed` is true. |
| `TodoItems.TodoItem.FromDict` | todo_app/todo_item.py:73-83 | It raises exactly the error `DecodeItem` reports. Otherwise it returns a new item whose fields are the decoded ones. |
| `TodoItems.TodoItem.DictRoundTrip` | todo_app/todo_item.py:61-83 | `from_dict(to_dict(item))` gives back every field of the item, both timestamps included. |
| `TodoItems.DecodeKeepsInconsistentEntry` | todo_app/todo_item.py:79-83 | `from_dict` accepts a completed entry whose `completed_at` is `None` and keeps it that way, so it does not enforce the invariant. |
| `Timestamps.IsoRoundTrip` | todo_app/todo_item.py:69-82 | Parsing the text form of a timestamp gives that timestamp back. |
| `Timestamps.IsoFormatInjective` | todo_app/todo_item.py:69-70 | Distinct timestamps have distinct text forms. |
| `TodoStore.TodoData.constructor` | todo_app/todo_data.py:19-21 | A new store is empty. |
| `TodoStore.TodoData.AddTodo` | todo_app/todo_data.py:23-33 | The item is appended at the end. Every earlier entry stays where it was. |
| `TodoStore.RemoveFirst` | todo_app/todo_data.py:45-49 | When the object occurs, the result is the list with its first occurrence cut out, which removes exactly one copy. Otherwise the list is unchanged. |
| `TodoStore.TodoData.RemoveTodo` | todo_app/todo_data.py:35-49 | It returns true iff this very object is in the store, and then removes its first occurrence, so the length drops by one. Otherwise it returns false and leaves the store unchanged. |
| `TodoStore.TodoData.GetAllTodos` | todo_app/todo_data.py:51-58 | It returns a newly allocated array holding the store's entries in order. It is fresh, so writing to it cannot change the store. |
| `TodoStore.Completed` | todo_app/todo_data.py:60-67 | The completed filter holds only completed entries and is never longer than the list. Its membership and order are stated by the lemmas below. |
| `TodoStore.Pending` | todo_app/todo_data.py:69-76 | The pending filter holds only pending entries and is never longer than the list. Its membership and order are stated by the lemmas below. |
| `TodoStore.TodoData.GetCompletedTodos` | todo_app/todo_data.py:60-67 | Every entry returned is completed, and there are no more of them than entries in the store. `FilterMembership` and `FiltersAppend` give the rest. |
| `TodoStore.TodoData.GetPendingTodos` | todo_app/todo_data.py:69-76 | Every entry returned is pending, and there are no more of them than entries in the store. `FilterMembership` and `FiltersAppend` give the rest. |
| `TodoStore.TodoData.GetTodoCount` | todo_app/todo_data.py:78-85 | The total count is the number of completed entries plus the number of pending ones. |
| `TodoStore.TodoData.GetCompletedCount` | todo_app/todo_data.py:87-94 | The completed count is at most the total count. `CountsPartition` states the exact sum. |
| `TodoStore.TodoData.GetPendingCount` | todo_app/todo_data.py:96-103 | The pending count is at most the total count. `CountsPartition` states the exact sum. |
| `TodoStore.TodoData.Length` | todo_app/todo_data.py:136-138 | `len(store)` equals `get_todo_count()` (lines 78-85). |
| `TodoStore.FilterMembership` | todo_app/todo_data.py:60-76 | An item is in the completed filter iff it is in the list and completed. It is in the pending filter iff it is in the list and not completed. |
| `TodoStore.FiltersAppend` | todo_app/todo_data.py:60-76 | Both filters distribute over concatenation, so they keep the list's order. |
| `TodoStore.FiltersPartition` | todo_app/todo_data.py:60-103 | The two filters split the list. Each occurrence lands in exactly one of them, as multisets and in length. |
| `TodoStore.TodoData.CountsPartition` | todo_app/todo_data.py:78-103 | The completed count plus the pending count is the total count. The total count is `len(store)` (lines 136-138). |
| `TodoStore.RemoveFirstCompleted` | todo_app/todo_data.py:112-114 | The first completed entry is in the list. Removing it drops it from the completed filter and leaves the pending filter unchanged. |
| `TodoStore.NoCompletedIsPending` | todo_app/todo_data.py:105-115 | A list has no completed entries iff it equals its own pending filter. |
| `TodoStore.PendingHasNoCompleted` | todo_app/todo_data.py:105-115 | The pending filter holds no completed entry, and filtering it again changes nothing. |
| `TodoStore.TodoData.ClearCompleted` | todo_app/todo_data.py:105-115 | It returns the number of completed entries present at the call. Afterwards the store is exactly the old pending entries in their old order, with no completed entry left. |
| `TodoStore.TodoData.ClearAll` | todo_app/todo_data.py:117-119 | The store is empty and its count is 0. |
| `TodoStore.TodoData.FindTodoByText` | todo_app/todo_data.py:121-134 | It returns `None` iff no entry's folded text equals the folded query. Otherwise it returns the entry at the first such position. It changes nothing. |
| `TodoStore.Lower` | todo_app/todo_data.py:132 | Folding keeps the length and folds each character on its own. |
| `TodoStore.LowerIdempotent` | todo_app/todo_data.py:132 | Folding a folded string changes nothing. |
| `TodoStore.FoldsAlike` | todo_app/todo_data.py:132 | Strings whose characters fold alike, position by position, fold to the same string. |
| `TripleFactorial.Wrap32` | ques2.java:6 | The result is in the Java `int` range and congruent to the exact product modulo 2^32. It is the product itself when the product fits. |
| `TripleFactorial.JavaRem` | ques2.java:6 | The remainder is strictly between -1000000007 and 1000000007 and takes the sign of the dividend. It is no larger in magnitude than the dividend and congruent to it. |
| `TripleFactorial.Run` | ques2.java:4-9 | With `n <= 0` the loop returns its accumulator unchanged. Otherwise the result lies strictly between -1000000007 and 1000000007. |
| `TripleFactorial.Product` | ques2.java:2-10 | The product n·(n−3)·(n−6)·…, positive factors only, is at least 1. |
| `TripleFactorial.TripleFactorial` | ques2.java:2-10 | The loop as written returns `Run(1, n)`. That is 1 for `n <= 0` and `n` for `1 <= n <= 3`. It is always strictly between -1000000007 and 1000000007, and may be negative (`NegativeAtTwentyEight`). |
| `TripleFactorial.ExactWithoutOverflow` | ques2.java:5-8 | As long as no product overflows, each accumulator stays in [0, 1000000007). The loop then yields the accumulator times the product, modulo 1000000007. |
| `TripleFactorial.TripleFactorialExact` | ques2.java:2-10 | When no intermediate product overflows, `tripleFactorial(n)` equals the product of n, n−3, … modulo 1000000007. |
| `TripleFactorial.OverflowAtTwentySeven` | ques2.java:6 | At n = 27 the step at 6 forms 396809280 · 6, which does not fit in an `int` and wraps to a negative value. The next remainder is then negative. The result, 552632462, differs from the product modulo 1000000007, which is 142566991. |
| `TripleFactorial.NegativeAtTwentyEight` | ques2.java:5-9 | At n = 28 the step at 7 wraps to a negative value, and `tripleFactorial(28)` returns −138845184, a negative number. |
| `TripleFactorial.FiftyOverflows` | ques2.java:13 | For the input `main` uses, n = 50, a product overflows, at the step at 35. |
| `TripleFactorial.TripleFactorialLong` | ques2.java:2-10 | With the product taken in `long`, which is proved never to overflow, the result is the product modulo 1000000007 for every `int` input. |

## Findings

| source | as written | input that shows it | evidently intended | confidence | as-written member | corrected member |
|---|---|---|---|---|---|---|
| ques2.java:6 | `ans * n` is computed in 32-bit `int`. It overflows once the product of a reduced accumulator and `n` passes 2^31−1. The wrapped value can be negative, and then Java's `%` leaves a negative remainder. | n = 27: 396809280 · 6 wraps to −1914111616. The result is then 552632462 instead of 142566991. n = 50, the input of `main`, also overflows. | `ans = (int) (((long) ans * n) % mod)`, which gives the product of n, n−3, … modulo 1000000007 | high; not executed | `TripleFactorial.OverflowAtTwentySeven` | `TripleFactorial.TripleFactorialLong` |

## Left out

- `todo_app/todo_window.py` is not part of this model. It keeps its own counts, taken from the list widget (`todo_app/todo_window.py:229-236`). It also has its own clear-completed loop over the list widget, which asks for confirmation and then calls `remove_todo` once per completed item, last first (`todo_app/todo_window.py:190-218`). Both duplicate what `TodoData` offers, and the widget state they read is not modelled.
- `main.py`, `push_button.py` and `todo_app/main.py` are PyQt5 application setup, widgets and signal wiring, and are not part of this model.
- The clock: `datetime.now()` is a parameter, `now`, of every operation that reads it.
- `isoformat` and `fromisoformat` stand for the calendar text format. The model uses the decimal numeral of an opaque tick count in its place. The round trip and injectivity of the real format are what the item relies on, and those hold of the stand-in. The calendar format itself is not modelled.
- `DecodeItem`: a `text` that is not a string or a `completed` that is not a boolean is reported as `TypeError`. Python would store such values unchecked, but the model's key/value form only carries strings, booleans and `None`.
- The `isinstance` check in `add_todo` (`todo_app/todo_data.py:30-31`) is enforced by Dafny's types.
- `__iter__`, `__repr__` and `TodoData.__str__` are Python protocol and formatting plumbing. `__str__` only reports the three counts that `CountsPartition` relates.
- `Lower`: folds only the ASCII letters A–Z. Python's `str.lower` follows full Unicode case mapping, which this model does not capture.
- `ClearCompleted`: the first-occurrence removals run on a local copy of the list, which is stored back into `todos` after the loop. Python removes from the field in place. No caller can see the difference in this single-threaded model.
- `FiftyOverflows`: states only that n = 50 overflows. The value `main` prints for it is not established by the model.
- `System.out.println` in `main` (ques2.java:12-14).
