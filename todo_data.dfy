/**
 * The todo store: an ordered list of todo items with add, remove, filters,
 * counts, bulk clearing and a case-insensitive lookup.
 *
 * Items are objects and the list holds references to them: removal compares
 * by identity (the item type defines no equality of its own), so two items
 * with the same text are different entries, and one item object may even be
 * listed twice. The lookup compares texts after case folding.
 */
module TodoStore {
  import opened Wrappers
  import opened Timestamps
  import opened TodoItems

  // ---------------------------------------------------------------------------
  // Filters over a list of items

  /** The completed items of `s`, in their order in `s`. */
  function Completed(s: seq<TodoItem>): (r: seq<TodoItem>)
    reads s
    ensures |r| <= |s|
    ensures forall i :: 0 <= i < |r| ==> r[i].completed
    decreases |s|
  {
    if s == [] then []
    else if s[0].completed then [s[0]] + Completed(s[1..])
    else Completed(s[1..])
  }

  /** The pending (not completed) items of `s`, in their order in `s`. */
  function Pending(s: seq<TodoItem>): (r: seq<TodoItem>)
    reads s
    ensures |r| <= |s|
    ensures forall i :: 0 <= i < |r| ==> !r[i].completed
    decreases |s|
  {
    if s == [] then []
    else if !s[0].completed then [s[0]] + Pending(s[1..])
    else Pending(s[1..])
  }

  /** An entry is in a filter exactly when it is in the list and has the filter's completion flag. */
  lemma {:induction false} FilterMembership(s: seq<TodoItem>, x: TodoItem)
    ensures x in Completed(s) <==> x in s && x.completed
    ensures x in Pending(s) <==> x in s && !x.completed
    decreases |s|
  {
    if s != [] {
      FilterMembership(s[1..], x);
      assert x in s <==> x == s[0] || x in s[1..];
    }
  }

  /** Filtering distributes over concatenation: neither filter reorders the list. */
  lemma {:induction false} FiltersAppend(a: seq<TodoItem>, b: seq<TodoItem>)
    ensures Completed(a + b) == Completed(a) + Completed(b)
    ensures Pending(a + b) == Pending(a) + Pending(b)
    decreases |a|
  {
    if a != [] {
      assert (a + b)[0] == a[0] && (a + b)[1..] == a[1..] + b;
      FiltersAppend(a[1..], b);
    } else {
      assert a + b == b;
    }
  }

  /** The two filters split the list: every entry lands in exactly one of them, as often as it occurs. */
  lemma {:induction false} FiltersPartition(s: seq<TodoItem>)
    ensures multiset(Completed(s)) + multiset(Pending(s)) == multiset(s)
    ensures |Completed(s)| + |Pending(s)| == |s|
    decreases |s|
  {
    if s != [] {
      FiltersPartition(s[1..]);
      assert s == [s[0]] + s[1..];
    }
  }

  /** Filtering the pending items leaves no completed item. */
  lemma PendingHasNoCompleted(s: seq<TodoItem>)
    ensures Completed(Pending(s)) == []
    ensures Pending(Pending(s)) == Pending(s)
  {
    NoCompletedIsPending(Pending(s));
  }

  /** A list without completed items is its own pending filter. */
  lemma {:induction false} NoCompletedIsPending(s: seq<TodoItem>)
    ensures Completed(s) == [] <==> Pending(s) == s
    decreases |s|
  {
    if s != [] {
      var t := s[1..];
      NoCompletedIsPending(t);
      if s[0].completed {
        assert Completed(s) == [s[0]] + Completed(t);
        assert |Pending(s)| <= |t| < |s|;
      } else {
        assert Completed(s) == Completed(t);
        assert Pending(s) == [s[0]] + Pending(t);
        assert s == [s[0]] + t;
        if Pending(s) == s {
          assert Pending(t) == Pending(s)[1..];
        }
      }
    }
  }

  // ---------------------------------------------------------------------------
  // `list.remove`: delete the first occurrence of an object, by identity

  /** Position of the first occurrence of `x` in `s`. */
  function IndexOf(s: seq<TodoItem>, x: TodoItem): (i: nat)
    requires x in s
    ensures i < |s| && s[i] == x
    ensures forall j :: 0 <= j < i ==> s[j] != x
    decreases |s|
  {
    if s[0] == x then 0 else 1 + IndexOf(s[1..], x)
  }

  /** `s` with the first occurrence of `x` deleted; `s` itself when `x` does not occur. */
  function RemoveFirst(s: seq<TodoItem>, x: TodoItem): (r: seq<TodoItem>)
    ensures x !in s ==> r == s
    ensures x in s ==> r == s[..IndexOf(s, x)] + s[IndexOf(s, x) + 1..]
    ensures x in s ==> multiset(r) == multiset(s) - multiset{x}
    decreases |s|
  {
    if s == [] then []
    else
      assert s == [s[0]] + s[1..];
      if s[0] == x then s[1..]
      else
        assert x in s ==> s[..IndexOf(s, x)] == [s[0]] + s[1..][..IndexOf(s[1..], x)];
        [s[0]] + RemoveFirst(s[1..], x)
  }

  /**
   * The first completed item of a list is found there, and removing it drops
   * it from the completed filter and leaves the pending filter as it was.
   */
  lemma {:induction false} RemoveFirstCompleted(s: seq<TodoItem>)
    requires Completed(s) != []
    ensures Completed(s)[0] in s
    ensures Completed(RemoveFirst(s, Completed(s)[0])) == Completed(s)[1..]
    ensures Pending(RemoveFirst(s, Completed(s)[0])) == Pending(s)
    decreases |s|
  {
    var x := Completed(s)[0];
    assert s == [s[0]] + s[1..];
    FilterMembership(s, x);
    if s[0] == x {
      assert Completed(s) == [x] + Completed(s[1..]);
    } else {
      assert !s[0].completed;
      assert Completed(s) == Completed(s[1..]);
      RemoveFirstCompleted(s[1..]);
      assert RemoveFirst(s, x) == [s[0]] + RemoveFirst(s[1..], x);
    }
  }

  // ---------------------------------------------------------------------------
  // Case folding for the lookup

  /** Lower case of one character; only the ASCII letters are folded. */
  function LowerChar(c: char): (d: char)
    ensures 'A' <= c <= 'Z' ==> d as int == c as int + 32
    ensures !('A' <= c <= 'Z') ==> d == c
  {
    if 'A' <= c <= 'Z' then (c as int + 32) as char else c
  }

  /** Lower case of a string (stands for `str.lower`). */
  function Lower(s: string): (r: string)
    ensures |r| == |s|
    ensures forall i :: 0 <= i < |s| ==> r[i] == LowerChar(s[i])
  {
    if s == [] then [] else [LowerChar(s[0])] + Lower(s[1..])
  }

  /** Folding is idempotent: a folded string folds to itself. */
  lemma LowerIdempotent(s: string)
    ensures Lower(Lower(s)) == Lower(s)
  {
  }

  /** Strings that differ only in the case of ASCII letters fold alike. */
  lemma FoldsAlike(s: string, t: string)
    requires |s| == |t|
    requires forall i :: 0 <= i < |s| ==> LowerChar(s[i]) == LowerChar(t[i])
    ensures Lower(s) == Lower(t)
  {
  }

  // ---------------------------------------------------------------------------
  // The store

  class TodoData {
    var todos: seq<TodoItem>

    constructor ()
      ensures todos == []
    {
      todos := [];
    }

    /** `add_todo`: appends at the end. */
    method AddTodo(todo: TodoItem)
      modifies this
      ensures todos == old(todos) + [todo]
    {
      todos := todos + [todo];
    }

    /** `remove_todo`: removes the first occurrence of this very object and reports whether there was one. */
    method RemoveTodo(todo: TodoItem) returns (found: bool)
      modifies this
      ensures found <==> todo in old(todos)
      ensures todos == RemoveFirst(old(todos), todo)
      ensures !found ==> todos == old(todos)
      ensures found ==> |todos| == |old(todos)| - 1
    {
      if todo in todos {
        todos := RemoveFirst(todos, todo);
        return true;
      }
      return false;
    }

    /** `get_all_todos`: a new list with the current entries; writing to it cannot change the store. */
    method GetAllTodos() returns (copy: array<TodoItem>)
      ensures fresh(copy)
      ensures copy[..] == todos
    {
      copy := new TodoItem[|todos|](i requires 0 <= i < |todos| reads this => todos[i]);
    }

    /** `get_completed_todos`: only completed entries, none more than the store holds. */
    function GetCompletedTodos(): (r: seq<TodoItem>)
      reads this, todos
      ensures |r| <= |todos|
      ensures forall i :: 0 <= i < |r| ==> r[i].completed
    {
      Completed(todos)
    }

    /** `get_pending_todos`: only pending entries, none more than the store holds. */
    function GetPendingTodos(): (r: seq<TodoItem>)
      reads this, todos
      ensures |r| <= |todos|
      ensures forall i :: 0 <= i < |r| ==> !r[i].completed
    {
      Pending(todos)
    }

    /** `get_todo_count`: every entry is either completed or pending. */
    function GetTodoCount(): (n: nat)
      reads this, todos
      ensures n == |Completed(todos)| + |Pending(todos)|
    {
      FiltersPartition(todos);
      |todos|
    }

    /** `get_completed_count`: at most the total. */
    function GetCompletedCount(): (n: nat)
      reads this, todos
      ensures n <= GetTodoCount()
    {
      |GetCompletedTodos()|
    }

    /** `get_pending_count`: at most the total. */
    function GetPendingCount(): (n: nat)
      reads this, todos
      ensures n <= GetTodoCount()
    {
      |GetPendingTodos()|
    }

    /** `len(store)`: the same number as `get_todo_count`. */
    function Length(): (n: nat)
      reads this
      ensures n == GetTodoCount()
    {
      |todos|
    }

    /** The completed and pending counts add up to the total, which is the length. */
    lemma CountsPartition()
      ensures GetCompletedCount() + GetPendingCount() == GetTodoCount()
      ensures GetTodoCount() == Length()
    {
      FiltersPartition(todos);
    }

    /**
     * `clear_completed`: removes, one by one, the first occurrence of each
     * item of the completed filter taken at the start (every removal finds
     * its item), and returns how many there were. What is left is exactly the
     * pending items, in their original order.
     */
    method ClearCompleted() returns (removed: nat)
      modifies this
      ensures removed == |Completed(old(todos))|
      ensures todos == Pending(old(todos))
      ensures Completed(todos) == []
    {
      ghost var before := todos;
      var list := todos;
      var completedTodos := Completed(list);
      for k := 0 to |completedTodos|
        invariant Completed(list) == completedTodos[k..]
        invariant Pending(list) == Pending(before)
      {
        RemoveFirstCompleted(list);
        list := RemoveFirst(list, completedTodos[k]);
      }
      NoCompletedIsPending(list);
      todos := list;
      removed := |completedTodos|;
    }

    /** `clear_all`. */
    method ClearAll()
      modifies this
      ensures todos == [] && GetTodoCount() == 0
    {
      todos := [];
    }

    /**
     * `find_todo_by_text`: the first item whose text equals `text` up to case,
     * or `None` when there is no such item.
     */
    method FindTodoByText(text: string) returns (r: Option<TodoItem>)
      ensures r.None? <==> forall i :: 0 <= i < |todos| ==> Lower(todos[i].text) != Lower(text)
      ensures r.Some? ==> exists i :: 0 <= i < |todos| && todos[i] == r.value
                            && Lower(todos[i].text) == Lower(text)
                            && forall j :: 0 <= j < i ==> Lower(todos[j].text) != Lower(text)
    {
      for i := 0 to |todos|
        invariant forall j :: 0 <= j < i ==> Lower(todos[j].text) != Lower(text)
      {
        if Lower(todos[i].text) == Lower(text) {
          return Some(todos[i]);
        }
      }
      return None;
    }
  }

  /** A usage scenario of the store: add two entries, complete one, clear the completed. */
  method ClearCompletedScenario() {
    var store := new TodoData();
    var milk := new TodoItem("Buy milk", Timestamp(1));
    var dog := new TodoItem("Walk dog", Timestamp(2));
    store.AddTodo(milk);
    store.AddTodo(dog);
    assert store.todos == [milk, dog];
    FiltersAppend([milk], [dog]);
    assert store.GetPendingCount() == 2 && store.GetTodoCount() == 2;

    milk.ToggleCompleted(Timestamp(3));
    FiltersAppend([milk], [dog]);
    assert store.GetCompletedCount() == 1 && store.GetPendingCount() == 1;

    var removed := store.ClearCompleted();
    assert removed == 1 && store.todos == [dog];
  }

  /** A usage scenario of the lookup: an upper-case query finds the entry added in mixed case. */
  method LookupScenario() {
    var store := new TodoData();
    var milk := new TodoItem("Buy milk", Timestamp(1));
    var dog := new TodoItem("Walk dog", Timestamp(2));
    store.AddTodo(milk);
    store.AddTodo(dog);
    assert store.todos == [milk, dog];
    FoldsAlike("Buy milk", "BUY MILK");
    var found := store.FindTodoByText("BUY MILK");
    assert Lower(store.todos[0].text) == Lower("BUY MILK");
    assert found.Some?;
    assert found == Some(milk);
  }
}
