/** The todo list: how a collection snapshot becomes the list (App.tsx:87-93)
    and how a press on one item rewrites it (App.tsx:172-179). */
module Todos {
  import opened Wrappers

  /** `title` and `isDone` are optional properties (App.tsx:54-58). */
  datatype Todo = Todo(id: string, title: Option<string>, isDone: Option<bool>)

  /** The fields of a stored document's data that a `Todo` can carry. A data
      field named `id` is possible, since the store does not forbid it. */
  datatype DocData = DocData(id: Option<string>, title: Option<string>, isDone: Option<bool>)

  /** A document of a snapshot: its store-assigned id and its data. */
  datatype Doc = Doc(id: string, data: DocData)

  /** `{id: doc.id, ...doc.data()}`: the spread comes second, so an `id`
      field in the data wins over the document id. */
  function TodoOf(doc: Doc): Todo
  {
    Todo(if doc.data.id.Some? then doc.data.id.value else doc.id, doc.data.title, doc.data.isDone)
  }

  /** `snapshot.docs.map(...)`: one todo per document, in document order. */
  function Computed(docs: seq<Doc>): (r: seq<Todo>)
    ensures |r| == |docs|
  {
    if docs == [] then [] else [TodoOf(docs[0])] + Computed(docs[1..])
  }

  lemma {:induction false} ComputedAt(docs: seq<Doc>, k: nat)
    requires k < |docs|
    ensures Computed(docs)[k] == TodoOf(docs[k])
  {
    if k > 0 {
      ComputedAt(docs[1..], k - 1);
    }
  }

  /** The snapshot is taken over wholesale: same length, same order, every
      entry carries its document's title and flag, and its document's id
      unless the data has an `id` field of its own. */
  lemma SnapshotIsTakenOver(docs: seq<Doc>)
    ensures |Computed(docs)| == |docs|
    ensures forall k :: 0 <= k < |docs| ==>
      Computed(docs)[k].title == docs[k].data.title &&
      Computed(docs)[k].isDone == docs[k].data.isDone &&
      Computed(docs)[k].id == (if docs[k].data.id.Some? then docs[k].data.id.value else docs[k].id)
  {
    forall k | 0 <= k < |docs|
      ensures Computed(docs)[k] == TodoOf(docs[k])
    {
      ComputedAt(docs, k);
    }
  }

  /** When no document stores an `id` field, the list's ids are exactly the
      document ids, in order. */
  lemma SnapshotIdsAreDocIds(docs: seq<Doc>)
    requires forall k :: 0 <= k < |docs| ==> docs[k].data.id == None
    ensures forall k :: 0 <= k < |docs| ==> Computed(docs)[k].id == docs[k].id
  {
    SnapshotIsTakenOver(docs);
  }

  /** JavaScript `!` on `boolean | undefined`: `!undefined` is `true`. */
  function Negated(b: Option<bool>): bool
  {
    match b
    case None => true
    case Some(v) => !v
  }

  /** `{...todo, isDone: !todo.isDone}`. */
  function Toggled(t: Todo): Todo
  {
    t.(isDone := Some(Negated(t.isDone)))
  }

  /** `prevState.map(item => item.id === todo.id ? {...todo, isDone: !todo.isDone} : todo)`:
      the non-matching branch yields the pressed `todo`, not `item`. */
  function ToggledList(items: seq<Todo>, t: Todo): (r: seq<Todo>)
    ensures |r| == |items|
  {
    if items == [] then []
    else [if items[0].id == t.id then Toggled(t) else t] + ToggledList(items[1..], t)
  }

  lemma {:induction false} ToggledListAt(items: seq<Todo>, t: Todo, k: nat)
    requires k < |items|
    ensures ToggledList(items, t)[k] == if items[k].id == t.id then Toggled(t) else t
  {
    if k > 0 {
      ToggledListAt(items[1..], t, k - 1);
    }
  }

  /** Every entry of the toggled list is the pressed todo, flipped where the
      old entry's id matched and unchanged elsewhere; so every id is the
      pressed todo's id and the titles are all the pressed todo's title. */
  lemma ToggleRewritesEveryEntry(items: seq<Todo>, t: Todo)
    ensures |ToggledList(items, t)| == |items|
    ensures forall k :: 0 <= k < |items| ==>
      ToggledList(items, t)[k].id == t.id &&
      ToggledList(items, t)[k].title == t.title &&
      (items[k].id == t.id ==> ToggledList(items, t)[k].isDone == Some(Negated(t.isDone))) &&
      (items[k].id != t.id ==> ToggledList(items, t)[k] == t)
  {
    forall k | 0 <= k < |items|
      ensures ToggledList(items, t)[k] == if items[k].id == t.id then Toggled(t) else t
    {
      ToggledListAt(items, t, k);
    }
  }

  /** Pressing an entry of the list flips that entry's flag (an absent flag
      becomes `true`) and keeps its id and title. */
  lemma PressedEntryFlips(items: seq<Todo>, k: nat)
    requires k < |items|
    ensures ToggledList(items, items[k])[k] == items[k].(isDone := Some(Negated(items[k].isDone)))
    ensures ToggledList(items, items[k])[k].isDone != items[k].isDone
  {
    ToggledListAt(items, items[k], k);
  }

  /** An entry whose id differs from the pressed todo's is replaced by the
      pressed todo, so it does not keep its own value. */
  lemma OtherEntriesAreOverwritten(items: seq<Todo>, t: Todo, j: nat)
    requires j < |items| && items[j].id != t.id
    ensures ToggledList(items, t)[j] == t
    ensures ToggledList(items, t)[j] != items[j]
  {
    ToggledListAt(items, t, j);
  }
}
