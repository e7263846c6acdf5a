/** The to-do panel: its list operations, the daily reset, and the list's round trip through localStorage. */
module Todos {
  import opened Wrappers
  import opened Json
  import opened Text
  import opened Seqs
  import opened LocalStorage

  /** One to-do item; `id` is the `Date.now()` value at creation. */
  datatype Todo = Todo(id: int, text: string, done: bool)

  const TodosKey := "dash_todos"
  const LastResetKey := "dash_last_reset"

  /** The list after `add()` and what the input box then holds. */
  datatype Added = Added(todos: seq<Todo>, box: string)

  /**
   * `add()` with `text` in the input box: blank text is rejected and left in the box;
   * otherwise the trimmed text is appended as an open item and the box is cleared.
   */
  function Add(todos: seq<Todo>, text: string, id: int): (r: Added)
    ensures AllSpace(text) ==> r == Added(todos, text)
    ensures !AllSpace(text) ==> r.box == ""
    ensures !AllSpace(text) ==> |r.todos| == |todos| + 1 && r.todos[..|todos|] == todos
    ensures !AllSpace(text) ==> r.todos[|todos|] == Todo(id, Trim(text), false) && r.todos[|todos|].text != ""
  {
    TrimEmpty(text);
    if Trim(text) == "" then Added(todos, text) else Added(todos + [Todo(id, Trim(text), false)], "")
  }

  /** The item with `done` flipped when it has the id. */
  function Flip(t: Todo, id: int): Todo
  {
    if t.id == id then t.(done := !t.done) else t
  }

  /** `toggle(id)`: every item with the id changes state, nothing else changes, order and length are kept. */
  function Toggle(todos: seq<Todo>, id: int): (r: seq<Todo>)
    ensures |r| == |todos|
    ensures forall i :: 0 <= i < |r| ==>
      r[i].id == todos[i].id && r[i].text == todos[i].text && (r[i].done <==> (todos[i].done != (todos[i].id == id)))
  {
    seq(|todos|, i requires 0 <= i < |todos| => Flip(todos[i], id))
  }

  /** `remove(id)`: the items without the id, in their order. */
  function Remove(todos: seq<Todo>, id: int): (r: seq<Todo>)
    ensures forall t :: t in r <==> t in todos && t.id != id
    ensures |r| <= |todos|
  {
    Filter(todos, (t: Todo) => t.id != id)
  }

  /** `completedCount`: the number of items that are done. */
  function Completed(todos: seq<Todo>): (n: nat)
    ensures n <= |todos|
  {
    |Filter(todos, (t: Todo) => t.done)|
  }

  /** Toggling the same id twice gives the list back. */
  lemma ToggleTwice(todos: seq<Todo>, id: int)
    ensures Toggle(Toggle(todos, id), id) == todos
  {
    var once := Toggle(todos, id);
    var twice := Toggle(once, id);
    forall i | 0 <= i < |todos|
      ensures twice[i] == todos[i]
    {
      assert once[i] == Flip(todos[i], id);
    }
  }

  /** Removing an id no item carries changes nothing; removing deletes every item that carries it. */
  lemma RemoveExactly(todos: seq<Todo>, id: int)
    ensures Remove(todos, id) == todos <==> forall i :: 0 <= i < |todos| ==> todos[i].id != id
  {
    FilterAll(todos, (t: Todo) => t.id != id);
  }

  /** A new item is open, so adding never changes the completed count. */
  lemma AddKeepsCompleted(todos: seq<Todo>, text: string, id: int)
    ensures Completed(Add(todos, text, id).todos) == Completed(todos)
    ensures |Add(todos, text, id).todos| == |todos| + (if AllSpace(text) then 0 else 1)
  {
    if !AllSpace(text) {
      var t := Todo(id, Trim(text), false);
      assert Add(todos, text, id).todos == todos + [t];
      FilterAppend(todos, [t], (t: Todo) => t.done);
    }
  }

  /** Toggling preserves the items' ids in order, so removing afterwards removes the same positions. */
  lemma RemoveAfterToggle(todos: seq<Todo>, id: int)
    ensures Remove(Toggle(todos, id), id) == Remove(todos, id)
    decreases |todos|
  {
    if |todos| > 0 {
      var r := Toggle(todos, id);
      assert r == [Flip(todos[0], id)] + Toggle(todos[1..], id);
      assert todos == [todos[0]] + todos[1..];
      FilterAppend([Flip(todos[0], id)], Toggle(todos[1..], id), (t: Todo) => t.id != id);
      FilterAppend([todos[0]], todos[1..], (t: Todo) => t.id != id);
      RemoveAfterToggle(todos[1..], id);
    }
  }

  // ---------------------------------------------------------------------
  // Persistence

  function TodoJson(t: Todo): Json
  {
    JObj([Member("id", JNum(t.id)), Member("text", JStr(t.text)), Member("done", JBool(t.done))])
  }

  /** The list as `lsSet('dash_todos', todos)` serialises it. */
  function TodosJson(todos: seq<Todo>): (j: Json)
    ensures j.JArr? && |j.items| == |todos|
  {
    JArr(seq(|todos|, i requires 0 <= i < |todos| => TodoJson(todos[i])))
  }

  /** Reads an item back from its JSON shape. */
  function TodoOf(j: Json): Option<Todo>
  {
    match j
    case JObj(ms) =>
      if |ms| == 3 && ms[0].key == "id" && ms[1].key == "text" && ms[2].key == "done"
         && ms[0].value.JNum? && ms[1].value.JStr? && ms[2].value.JBool?
      then Some(Todo(ms[0].value.n, ms[1].value.s, ms[2].value.b))
      else None
    case _ => None
  }

  /** Reads the list back; any item of the wrong shape fails the whole list. */
  function TodosOf(j: Json): (r: Option<seq<Todo>>)
    ensures r.Some? ==> j.JArr? && |r.value| == |j.items|
  {
    match j
    case JArr(items) => TodosOfItems(items)
    case _ => None
  }

  function TodosOfItems(items: seq<Json>): (r: Option<seq<Todo>>)
    ensures r.Some? ==> |r.value| == |items|
  {
    if |items| == 0 then Some([])
    else
      match (TodoOf(items[0]), TodosOfItems(items[1..]))
      case (Some(t), Some(ts)) => Some([t] + ts)
      case _ => None
  }

  /** Reading the JSON form of a list gives the list back. */
  lemma {:induction false} TodosJsonRoundTrip(todos: seq<Todo>)
    ensures TodosOf(TodosJson(todos)) == Some(todos)
    decreases |todos|
  {
    if |todos| > 0 {
      TodosJsonRoundTrip(todos[1..]);
      assert TodosJson(todos).items[1..] == TodosJson(todos[1..]).items;
      assert TodoOf(TodosJson(todos).items[0]) == Some(todos[0]);
      assert todos == [todos[0]] + todos[1..];
    }
  }

  /** The list the panel persists is the list it loads on the next visit. */
  lemma PersistedListReloads(store: Store, todos: seq<Todo>)
    ensures TodosOf(LsGet(LsSet(store, false, TodosKey, TodosJson(todos)).value, TodosKey, JArr([]))) == Some(todos)
  {
    LsRoundTrip(store, TodosKey, TodosJson(todos), JArr([]));
    TodosJsonRoundTrip(todos);
  }

  // ---------------------------------------------------------------------
  // Daily reset

  /** The panel's state: the localStorage it reads and writes, and its list. */
  datatype Panel = Panel(store: Store, writesRejected: bool, todos: seq<Todo>)

  /** The panel after the reset effect, and whether the effect ended by throwing. */
  datatype Reset = Reset(panel: Panel, threw: bool)

  /** Whether the last recorded reset is `today`. */
  predicate ResetToday(store: Store, today: string)
  {
    LastResetKey in store && store[LastResetKey] == today
  }

  /**
   * The mount-time reset: unless the last reset was `today`, the stored and shown lists are
   * emptied and `today` is recorded. Its `lsSet` is outside any `try`, so where the store
   * rejects writes the effect throws before anything changes.
   */
  function DailyReset(p: Panel, today: string): (r: Reset)
    ensures r.threw <==> !ResetToday(p.store, today) && p.writesRejected
    ensures r.threw || ResetToday(p.store, today) ==> r.panel == p
    ensures !r.threw ==> ResetToday(r.panel.store, today)
    ensures !ResetToday(p.store, today) && !p.writesRejected ==>
      r.panel.todos == [] && TodosOf(LsGet(r.panel.store, TodosKey, JArr([]))) == Some([])
    ensures r.panel.writesRejected == p.writesRejected
    ensures forall k :: k in p.store && k != TodosKey && k != LastResetKey ==> k in r.panel.store && r.panel.store[k] == p.store[k]
  {
    if ResetToday(p.store, today) then Reset(p, false)
    else
      match LsSet(p.store, p.writesRejected, TodosKey, JArr([]))
      case None => Reset(p, true)
      case Some(cleared) =>
        LsRoundTrip(p.store, TodosKey, JArr([]), JArr([]));
        assert LsGet(cleared[LastResetKey := today], TodosKey, JArr([])) == LsGet(cleared, TodosKey, JArr([]));
        Reset(Panel(cleared[LastResetKey := today], false, []), false)
  }
}
