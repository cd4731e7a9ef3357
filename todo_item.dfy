/**
 * One todo entry: its text, its completion flag and two timestamps.
 *
 * The entry is an object whose transitions update its fields in place
 * (`TodoItem`). What each transition does to the fields is defined once, on
 * the value `ItemState`, so that the lemmas at the end of the module can
 * compose transitions; every method promises that its new state is the
 * corresponding function of its old state.
 */
module TodoItems {
  import opened Wrappers
  import opened Timestamps

  /** The fields of an item, as a value. */
  datatype ItemState = ItemState(
    text: string,
    completed: bool,
    createdAt: Timestamp,
    completedAt: Option<Timestamp>)

  /** The invariant `toggle_completed` maintains: the completion time is recorded exactly when the item is completed. */
  predicate Consistent(s: ItemState) {
    s.completedAt.Some? <==> s.completed
  }

  // ---------------------------------------------------------------------------
  // Transitions, as functions of the state and of the clock reading `now`

  /** `toggle_completed`: flip the flag; stamp the time when it becomes set, clear it otherwise. */
  function Toggled(s: ItemState, now: Timestamp): (r: ItemState)
    ensures r.completed != s.completed
    ensures Consistent(r)
    ensures r.completedAt.Some? ==> r.completedAt.value == now
    ensures r.text == s.text && r.createdAt == s.createdAt
  {
    var done := !s.completed;
    s.(completed := done, completedAt := if done then Some(now) else None)
  }

  /** `mark_completed`: nothing changes on a completed item; otherwise set the flag and stamp the time. */
  function MarkedCompleted(s: ItemState, now: Timestamp): (r: ItemState)
    ensures r.completed
    ensures s.completed ==> r == s
    ensures !s.completed ==> r.completedAt == Some(now)
    ensures r.text == s.text && r.createdAt == s.createdAt
  {
    if s.completed then s else s.(completed := true, completedAt := Some(now))
  }

  /** `mark_incomplete`: nothing changes on an incomplete item; otherwise clear the flag and the time. */
  function MarkedIncomplete(s: ItemState): (r: ItemState)
    ensures !r.completed
    ensures s.completed ==> r.completedAt == None
    ensures !s.completed ==> r == s
    ensures r.text == s.text && r.createdAt == s.createdAt
  {
    if s.completed then s.(completed := false, completedAt := None) else s
  }

  // ---------------------------------------------------------------------------
  // The plain key/value form of `to_dict` and `from_dict`

  /** A value in the key/value form: a string, a boolean or `None`. */
  datatype Value = Str(s: string) | Bool(b: bool) | Null

  type Dict = map<string, Value>

  /** What `from_dict` raises. */
  datatype DictError = KeyError(key: string) | TypeError | ValueError

  /** Python truthiness of a value: `None`, `False` and the empty string are false. */
  predicate Truthy(v: Value) {
    match v
    case Str(s) => s != []
    case Bool(b) => b
    case Null => false
  }

  predicate HasItemKeys(d: Dict) {
    "text" in d && "completed" in d && "created_at" in d && "completed_at" in d
  }

  /** `datetime.fromisoformat` applied to a value of the key/value form. */
  function ParseTimestamp(v: Value): (r: Result<Timestamp, DictError>)
    ensures r.Ok? <==> v.Str? && FromIsoFormat(v.s).Some?
    ensures r.Ok? ==> FromIsoFormat(v.s) == Some(r.value)
    ensures !v.Str? ==> r == Err(TypeError)
    ensures v.Str? && FromIsoFormat(v.s).None? ==> r == Err(ValueError)
  {
    match v
    case Str(s) =>
      (match FromIsoFormat(s)
       case Some(t) => Ok(t)
       case None => Err(ValueError))
    case _ => Err(TypeError)
  }

  /**
   * `from_dict`, as a function of the key/value form: the keys are read in
   * the order `from_dict` reads them, a missing key raises `KeyError`, a
   * timestamp that does not parse raises `ValueError`, and `completed_at` is
   * parsed only when its value is truthy.
   */
  function DecodeItem(d: Dict): (r: Result<ItemState, DictError>)
    ensures r.Ok? <==>
              (HasItemKeys(d) && d["text"].Str? && d["completed"].Bool?
               && ParseTimestamp(d["created_at"]).Ok?
               && (!Truthy(d["completed_at"]) || ParseTimestamp(d["completed_at"]).Ok?))
    // which error is raised, key by key in the order they are read
    ensures "text" !in d ==> r == Err(KeyError("text"))
    ensures "text" in d && "completed" !in d ==> r == Err(KeyError("completed"))
    ensures "text" in d && "completed" in d && (!d["text"].Str? || !d["completed"].Bool?) ==>
              r == Err(TypeError)
    ensures "text" in d && "completed" in d && d["text"].Str? && d["completed"].Bool? ==>
              ("created_at" !in d ==> r == Err(KeyError("created_at")))
              && ("created_at" in d && ParseTimestamp(d["created_at"]).Err? ==>
                    r == Err(ParseTimestamp(d["created_at"]).error))
              && ("created_at" in d && ParseTimestamp(d["created_at"]).Ok? && "completed_at" !in d ==>
                    r == Err(KeyError("completed_at")))
              && ("created_at" in d && ParseTimestamp(d["created_at"]).Ok? && "completed_at" in d
                  && Truthy(d["completed_at"]) && ParseTimestamp(d["completed_at"]).Err? ==>
                    r == Err(ParseTimestamp(d["completed_at"]).error))
    ensures r.Ok? ==> d["text"] == Str(r.value.text) && d["completed"] == Bool(r.value.completed)
    ensures r.Ok? ==> ParseTimestamp(d["created_at"]) == Ok(r.value.createdAt)
    ensures r.Ok? ==> (r.value.completedAt.Some? <==> Truthy(d["completed_at"]))
    ensures r.Ok? && r.value.completedAt.Some? ==>
              ParseTimestamp(d["completed_at"]) == Ok(r.value.completedAt.value)
    ensures r.Ok? ==> (Consistent(r.value) <==> (Truthy(d["completed_at"]) <==> d["completed"].b))
  {
    if "text" !in d then Err(KeyError("text"))
    else if "completed" !in d then Err(KeyError("completed"))
    else if !d["text"].Str? || !d["completed"].Bool? then Err(TypeError)
    else if "created_at" !in d then Err(KeyError("created_at"))
    else
      match ParseTimestamp(d["created_at"])
      case Err(e) => Err(e)
      case Ok(created) =>
        if "completed_at" !in d then Err(KeyError("completed_at"))
        else if !Truthy(d["completed_at"]) then
          Ok(ItemState(d["text"].s, d["completed"].b, created, None))
        else
          match ParseTimestamp(d["completed_at"])
          case Err(e) => Err(e)
          case Ok(done) => Ok(ItemState(d["text"].s, d["completed"].b, created, Some(done)))
  }

  // ---------------------------------------------------------------------------
  // The object

  class TodoItem {
    var text: string
    var completed: bool
    var createdAt: Timestamp
    var completedAt: Option<Timestamp>

    function State(): ItemState
      reads this
    {
      ItemState(text, completed, createdAt, completedAt)
    }

    /** `TodoItem(text, completed=False)` at clock reading `now`: no completion time is recorded, even when `completed` is set. */
    constructor (text: string, now: Timestamp, completed: bool := false)
      ensures this.text == text && this.completed == completed
      ensures createdAt == now && completedAt == None
      ensures Consistent(State()) <==> !completed
    {
      this.text := text;
      this.completed := completed;
      this.createdAt := now;
      this.completedAt := None;
    }

    method ToggleCompleted(now: Timestamp)
      modifies this
      ensures State() == Toggled(old(State()), now)
    {
      completed := !completed;
      if completed {
        completedAt := Some(now);
      } else {
        completedAt := None;
      }
    }

    method MarkCompleted(now: Timestamp)
      modifies this
      ensures State() == MarkedCompleted(old(State()), now)
    {
      if !completed {
        completed := true;
        completedAt := Some(now);
      }
    }

    method MarkIncomplete()
      modifies this
      ensures State() == MarkedIncomplete(old(State()))
    {
      if completed {
        completed := false;
        completedAt := None;
      }
    }

    /** `str(item)`: a check mark or a circle, a space, then the text. */
    function ToString(): (r: string)
      reads this
      ensures |r| == |text| + 2 && r[1] == ' ' && r[2..] == text
      ensures r[0] == '\U{2713}' <==> completed
      ensures r[0] == '\U{25CB}' <==> !completed
    {
      var status := if completed then '\U{2713}' else '\U{25CB}';
      [status, ' '] + text
    }

    /** `to_dict`: the four fields under their own names, the timestamps in text form. */
    function ToDict(): (d: Dict)
      reads this
      ensures d.Keys == {"text", "completed", "created_at", "completed_at"}
      ensures d["completed_at"] == Null <==> completedAt.None?
    {
      map[
        "text" := Str(text),
        "completed" := Bool(completed),
        "created_at" := Str(IsoFormat(createdAt)),
        "completed_at" := if completedAt.Some? then Str(IsoFormat(completedAt.value)) else Null
      ]
    }

    /** `from_dict(to_dict(item))` rebuilds every field of the item. */
    lemma DictRoundTrip()
      ensures DecodeItem(ToDict()) == Ok(State())
    {
      IsoRoundTrip(createdAt);
      if completedAt.Some? {
        IsoRoundTrip(completedAt.value);
      }
    }

    /**
     * `from_dict`: builds an item through the constructor (at clock reading
     * `now`) and then overwrites its timestamps with the parsed ones.
     */
    static method FromDict(d: Dict, now: Timestamp) returns (r: Result<TodoItem, DictError>)
      ensures DecodeItem(d).Err? ==> r == Err(DecodeItem(d).error)
      ensures DecodeItem(d).Ok? ==> r.Ok? && fresh(r.value) && r.value.State() == DecodeItem(d).value
    {
      var decoded := DecodeItem(d);
      if decoded.Err? {
        return Err(decoded.error);
      }
      var item := new TodoItem(d["text"].s, now, d["completed"].b);
      item.createdAt := decoded.value.createdAt;
      if Truthy(d["completed_at"]) {
        item.completedAt := decoded.value.completedAt;
      }
      return Ok(item);
    }
  }

  // ---------------------------------------------------------------------------
  // Properties of the transitions

  /** Toggling twice restores the flag; from an incomplete item it also clears the completion time. */
  lemma ToggleTwice(s: ItemState, t1: Timestamp, t2: Timestamp)
    ensures Toggled(Toggled(s, t1), t2).completed == s.completed
    ensures !s.completed ==> Toggled(Toggled(s, t1), t2).completedAt == None
    ensures !s.completed && Consistent(s) ==> Toggled(Toggled(s, t1), t2) == s
  {
  }

  lemma MarkCompletedIdempotent(s: ItemState, t1: Timestamp, t2: Timestamp)
    ensures MarkedCompleted(MarkedCompleted(s, t1), t2) == MarkedCompleted(s, t1)
  {
  }

  lemma MarkIncompleteIdempotent(s: ItemState)
    ensures MarkedIncomplete(MarkedIncomplete(s)) == MarkedIncomplete(s)
  {
  }

  /** Every transition keeps the invariant; toggling establishes it from any state. */
  lemma TransitionsPreserveConsistency(s: ItemState, now: Timestamp)
    ensures Consistent(Toggled(s, now))
    ensures Consistent(s) ==> Consistent(MarkedCompleted(s, now))
    ensures Consistent(s) ==> Consistent(MarkedIncomplete(s))
    ensures Consistent(MarkedCompleted(s, now)) <==> !s.completed || Consistent(s)
    ensures Consistent(MarkedIncomplete(s)) <==> s.completed || Consistent(s)
  {
  }

  /**
   * Neither the constructor with `completed` set nor `from_dict` enforces the
   * invariant: a completed entry without a completion time decodes as it is.
   */
  lemma DecodeKeepsInconsistentEntry(text: string, created: Timestamp)
    ensures DecodeItem(map["text" := Str(text), "completed" := Bool(true),
                           "created_at" := Str(IsoFormat(created)), "completed_at" := Null])
            == Ok(ItemState(text, true, created, None))
  {
    IsoRoundTrip(created);
  }
}
