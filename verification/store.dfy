/**
  The database the handlers run against: the `stories`, `jokes` and `actionItems` tables, the
  scheduler's queue and the id counter, with the primitives `db.get`, `db.insert`, `db.patch`,
  `db.delete`, `scheduler.runAfter` and the index queries that the handlers use.

  A table is a sequence of rows in insertion order. Ids come from one counter and are never
  reused, so a table's rows have increasing ids, and an index query over one key returns its rows
  in this order (the order of `_creationTime`).
*/
module Store {
  import opened Wrappers
  import opened Schema

  /** A stored document with its `_id`. */
  datatype Row<T> = Row(id: Id, doc: T)

  /** A function handed to `ctx.scheduler.runAfter(0, ...)`, with its arguments. */
  datatype Task =
    | Transcribe(fileUrl: string, id: Id)   // internal.whisper.chat
    | TellJoke(id: Id, prompt: string)      // internal.replicate_joke.chat

  /** What a handler throws. */
  datatype Failure =
    | ConvexError(message: string)          // `throw new ConvexError(message)` in a handler
    | NonexistentDocument(id: Id)           // `db.patch` of an id with no document
    | InvalidVector(dimensions: nat)        // a vector search with a vector of the wrong length
    | CallFailed                            // an outside service an action calls threw

  /** The state of the database at one moment. */
  datatype Tables = Tables(
    stories: seq<Row<Story>>,
    jokes: seq<Row<Joke>>,
    actionItems: seq<Row<ActionItem>>,
    scheduled: seq<Task>,
    nextId: Id)

  // ---------------------------------------------------------------------------------------------
  // Sequences

  /** The elements of `xs` that satisfy `p`, in their order in `xs`. */
  function Filter<T(==,!new)>(xs: seq<T>, p: T -> bool): (r: seq<T>)
    ensures forall x :: x in r <==> x in xs && p(x)
    ensures |r| <= |xs|
    ensures Subsequence(r, xs)
  {
    if xs == [] then []
    else if p(xs[0]) then [xs[0]] + Filter(xs[1..], p)
    else
      var rest := Filter(xs[1..], p);
      SubsequenceCons(rest, xs[0], xs[1..]);
      assert [xs[0]] + xs[1..] == xs;
      rest
  }

  /** `xs` is `ys` with some elements left out and the rest in their order. */
  predicate Subsequence<T(==)>(xs: seq<T>, ys: seq<T>)
    decreases |ys|
  {
    if xs == [] then true
    else if ys == [] then false
    else if xs[0] == ys[0] then Subsequence(xs[1..], ys[1..])
    else Subsequence(xs, ys[1..])
  }

  lemma {:induction false} SubsequenceCons<T>(xs: seq<T>, y: T, ys: seq<T>)
    requires Subsequence(xs, ys)
    ensures Subsequence(xs, [y] + ys)
    decreases |ys|, 1
  {
    assert ([y] + ys)[1..] == ys;
    if xs != [] && xs[0] == y {
      SubsequenceTail(xs, ys);
    }
  }

  lemma {:induction false} SubsequenceTail<T>(xs: seq<T>, ys: seq<T>)
    requires xs != [] && Subsequence(xs, ys)
    ensures Subsequence(xs[1..], ys)
    decreases |ys|, 0
  {
    assert ys != [];
    assert [ys[0]] + ys[1..] == ys;
    if xs[0] == ys[0] {
      SubsequenceCons(xs[1..], ys[0], ys[1..]);
    } else {
      SubsequenceTail(xs, ys[1..]);
      SubsequenceCons(xs[1..], ys[0], ys[1..]);
    }
  }

  /** Filtering distributes over appending one element. */
  lemma {:induction false} FilterAppend<T(!new)>(xs: seq<T>, x: T, p: T -> bool)
    ensures Filter(xs + [x], p) == Filter(xs, p) + (if p(x) then [x] else [])
  {
    if xs == [] {
      assert [x][1..] == [];
    } else {
      assert (xs + [x])[1..] == xs[1..] + [x];
      FilterAppend(xs[1..], x, p);
    }
  }

  /** Filtering keeps a sequence whose elements all pass. */
  lemma {:induction false} FilterAll<T(!new)>(xs: seq<T>, p: T -> bool)
    requires forall x :: x in xs ==> p(x)
    ensures Filter(xs, p) == xs
  {
    if xs != [] {
      assert xs[0] in xs;
      assert forall x :: x in xs[1..] ==> x in xs;
      FilterAll(xs[1..], p);
      assert [xs[0]] + xs[1..] == xs;
    }
  }

  /** Filtering distributes over concatenation. */
  lemma {:induction false} FilterConcat<T(!new)>(xs: seq<T>, ys: seq<T>, p: T -> bool)
    ensures Filter(xs + ys, p) == Filter(xs, p) + Filter(ys, p)
  {
    if xs == [] {
      assert xs + ys == ys;
    } else {
      assert (xs + ys)[0] == xs[0];
      assert (xs + ys)[1..] == xs[1..] + ys;
      FilterConcat(xs[1..], ys, p);
    }
  }

  // ---------------------------------------------------------------------------------------------
  // Tables

  /** The ids of a table increase along it: no id occurs twice, and rows are in creation order. */
  predicate Increasing<T>(rows: seq<Row<T>>) {
    forall i, j :: 0 <= i < j < |rows| ==> rows[i].id < rows[j].id
  }

  /** Every id of a table is below `n`. */
  predicate Below<T(==)>(rows: seq<Row<T>>, n: Id) {
    forall r :: r in rows ==> r.id < n
  }

  predicate Has<T>(rows: seq<Row<T>>, id: Id) {
    exists i :: 0 <= i < |rows| && rows[i].id == id
  }

  /** `db.get(id)` on one table: the document with that id, `None` when there is none. */
  function Lookup<T(==)>(rows: seq<Row<T>>, id: Id): (r: Option<T>)
    ensures r.Some? <==> Has(rows, id)
    ensures r.Some? ==> Row(id, r.value) in rows
  {
    if rows == [] then None
    else if rows[0].id == id then Some(rows[0].doc)
    else
      var r := Lookup(rows[1..], id);
      assert r.Some? ==> rows[1..][0] == rows[1];
      assert forall i :: 1 <= i < |rows| ==> rows[i] == rows[1..][i - 1];
      r
  }

  /** In a table without repeated ids, every row is what a lookup of its id finds. */
  lemma {:induction false} LookupFindsRow<T>(rows: seq<Row<T>>, i: nat)
    requires Increasing(rows) && i < |rows|
    ensures Lookup(rows, rows[i].id) == Some(rows[i].doc)
  {
    if i > 0 {
      assert rows[0].id < rows[i].id;
      assert rows[1..][i - 1] == rows[i];
      LookupFindsRow(rows[1..], i - 1);
    }
  }

  /** A row appended to a table is found by its id, and no other lookup changes. */
  lemma {:induction false} LookupAppend<T>(rows: seq<Row<T>>, row: Row<T>, id: Id)
    requires Below(rows, row.id)
    ensures Lookup(rows + [row], id) == if id == row.id then Some(row.doc) else Lookup(rows, id)
  {
    if rows == [] {
    } else {
      assert rows[0] in rows;
      assert (rows + [row])[1..] == rows[1..] + [row];
      assert forall r :: r in rows[1..] ==> r in rows;
      LookupAppend(rows[1..], row, id);
    }
  }

  lemma AppendKeepsIncreasing<T>(rows: seq<Row<T>>, row: Row<T>)
    requires Increasing(rows) && Below(rows, row.id)
    ensures Increasing(rows + [row])
  {
    forall i, j | 0 <= i < j < |rows + [row]| ensures (rows + [row])[i].id < (rows + [row])[j].id {
      assert rows[i] in rows;
    }
  }

  /** `db.delete(id)` on one table. */
  function Without<T(==,!new)>(rows: seq<Row<T>>, id: Id): (r: seq<Row<T>>)
    ensures forall x :: x in r <==> x in rows && x.id != id
    ensures |r| <= |rows|
  {
    Filter(rows, (x: Row<T>) => x.id != id)
  }

  /** Deleting an id hides it from every later lookup and changes no other lookup. */
  lemma {:induction false} LookupWithout<T(!new)>(rows: seq<Row<T>>, id: Id, k: Id)
    ensures Lookup(Without(rows, id), k) == if k == id then None else Lookup(rows, k)
  {
    if rows != [] {
      LookupWithout(rows[1..], id, k);
    }
  }

  lemma WithoutKeepsIncreasing<T(!new)>(rows: seq<Row<T>>, id: Id)
    requires Increasing(rows)
    ensures Increasing(Without(rows, id))
  {
    FilterKeepsIncreasing(rows, (x: Row<T>) => x.id != id);
  }

  /** In a table without repeated ids, deleting a stored id removes exactly one row. */
  lemma {:induction false} WithoutRemovesOne<T(!new)>(rows: seq<Row<T>>, id: Id)
    requires Increasing(rows) && Has(rows, id)
    ensures |Without(rows, id)| == |rows| - 1
  {
    if rows[0].id == id {
      WithoutAbsent(rows[1..], id);
    } else {
      var i :| 0 <= i < |rows| && rows[i].id == id;
      assert rows[1..][i - 1].id == id;
      WithoutRemovesOne(rows[1..], id);
    }
  }

  lemma {:induction false} WithoutAbsent<T(!new)>(rows: seq<Row<T>>, id: Id)
    requires forall r :: r in rows ==> r.id != id
    ensures Without(rows, id) == rows
  {
    if rows != [] {
      assert rows[0] in rows;
      assert forall r :: r in rows[1..] ==> r in rows;
      WithoutAbsent(rows[1..], id);
      assert [rows[0]] + rows[1..] == rows;
    }
  }

  /** `db.patch(id, patch)` on the stories table: the story with that id gets the patch. */
  function Patched(rows: seq<Row<Story>>, id: Id, p: StoryPatch): (r: seq<Row<Story>>)
    ensures |r| == |rows|
    ensures forall i :: 0 <= i < |r| ==> r[i].id == rows[i].id
  {
    if rows == [] then []
    else [if rows[0].id == id then Row(id, Apply(rows[0].doc, p)) else rows[0]] + Patched(rows[1..], id, p)
  }

  /** A patch changes what a lookup of the patched id finds, and nothing else. */
  lemma {:induction false} LookupPatched(rows: seq<Row<Story>>, id: Id, p: StoryPatch, k: Id)
    ensures Lookup(Patched(rows, id, p), k) ==
      if k == id && Lookup(rows, k).Some? then Some(Apply(Lookup(rows, k).value, p)) else Lookup(rows, k)
  {
    if rows != [] {
      LookupPatched(rows[1..], id, p, k);
    }
  }

  lemma PatchedKeepsIds(rows: seq<Row<Story>>, id: Id, p: StoryPatch, n: Id)
    requires Increasing(rows) && Below(rows, n)
    ensures Increasing(Patched(rows, id, p)) && Below(Patched(rows, id, p), n)
  {
    var r := Patched(rows, id, p);
    forall x | x in r ensures x.id < n {
      var i :| 0 <= i < |r| && r[i] == x;
      assert rows[i] in rows;
    }
  }

  // ---------------------------------------------------------------------------------------------
  // Patches of a story

  /** The partial documents the handlers pass to `db.patch` on a story. */
  datatype StoryPatch =
    | SummaryPatch(summary: string, title: string)   // { summary, title, generatingTitle: false }
    | ActionItemsDonePatch                            // { generatingActionItems: false }
    | JokeDonePatch                                   // { generatingJoke: false }
    | EmbeddingPatch(embedding: seq<real>)            // { embedding }

  /** A patch overwrites the fields it names and keeps every other field. */
  function Apply(s: Story, p: StoryPatch): (r: Story)
    ensures r.userId == s.userId
    ensures p.SummaryPatch? ==>
      r.summary == Some(p.summary) && r.title == Some(p.title) && !r.generatingTitle &&
      r.(summary := s.summary, title := s.title, generatingTitle := s.generatingTitle) == s
    ensures p.ActionItemsDonePatch? ==>
      !r.generatingActionItems && r.(generatingActionItems := s.generatingActionItems) == s
    ensures p.JokeDonePatch? ==>
      r.generatingJoke == Some(false) && r.(generatingJoke := s.generatingJoke) == s
    ensures p.EmbeddingPatch? ==>
      r.embedding == Some(p.embedding) && r.(embedding := s.embedding) == s
  {
    match p
    case SummaryPatch(summary, title) =>
      s.(summary := Some(summary), title := Some(title), generatingTitle := false)
    case ActionItemsDonePatch => s.(generatingActionItems := false)
    case JokeDonePatch => s.(generatingJoke := Some(false))
    case EmbeddingPatch(embedding) => s.(embedding := Some(embedding))
  }

  // ---------------------------------------------------------------------------------------------
  // Index queries

  function JokesOfStory(rows: seq<Row<Joke>>, storyId: Id): (r: seq<Row<Joke>>)
    ensures forall x :: x in r <==> x in rows && x.doc.storyId == storyId
    ensures Subsequence(r, rows)
  {
    Filter(rows, (x: Row<Joke>) => x.doc.storyId == storyId)
  }

  function ActionItemsOfStory(rows: seq<Row<ActionItem>>, storyId: Id): (r: seq<Row<ActionItem>>)
    ensures forall x :: x in r <==> x in rows && x.doc.storyId == storyId
    ensures Subsequence(r, rows)
  {
    Filter(rows, (x: Row<ActionItem>) => x.doc.storyId == storyId)
  }

  /** The action items of a story in two tables laid end to end are those of the first, then those
      of the second. */
  lemma ActionItemsOfStoryConcat(xs: seq<Row<ActionItem>>, ys: seq<Row<ActionItem>>, storyId: Id)
    ensures ActionItemsOfStory(xs + ys, storyId) ==
      ActionItemsOfStory(xs, storyId) + ActionItemsOfStory(ys, storyId)
  {
    FilterConcat(xs, ys, (x: Row<ActionItem>) => x.doc.storyId == storyId);
  }

  lemma ActionItemsOfStoryAll(rows: seq<Row<ActionItem>>, storyId: Id)
    requires forall x :: x in rows ==> x.doc.storyId == storyId
    ensures ActionItemsOfStory(rows, storyId) == rows
  {
    FilterAll(rows, (x: Row<ActionItem>) => x.doc.storyId == storyId);
  }

  lemma ActionItemsOfStoryNone(rows: seq<Row<ActionItem>>, storyId: Id)
    requires forall x :: x in rows ==> x.doc.storyId != storyId
    ensures ActionItemsOfStory(rows, storyId) == []
  {
  }

  function ActionItemsOfUser(rows: seq<Row<ActionItem>>, userId: string): (r: seq<Row<ActionItem>>)
    ensures forall x :: x in r <==> x in rows && x.doc.userId == userId
    ensures Subsequence(r, rows)
  {
    Filter(rows, (x: Row<ActionItem>) => x.doc.userId == userId)
  }

  function StoriesOfUser(rows: seq<Row<Story>>, userId: string): (r: seq<Row<Story>>)
    ensures forall x :: x in r <==> x in rows && x.doc.userId == userId
    ensures Subsequence(r, rows)
  {
    Filter(rows, (x: Row<Story>) => x.doc.userId == userId)
  }

  /** A filtered table keeps its ids increasing, so an index query returns rows in creation order. */
  lemma {:induction false} FilterKeepsIncreasing<T(!new)>(rows: seq<Row<T>>, p: Row<T> -> bool)
    requires Increasing(rows)
    ensures Increasing(Filter(rows, p))
  {
    if rows != [] {
      var rest := Filter(rows[1..], p);
      FilterKeepsIncreasing(rows[1..], p);
      forall x | x in rest ensures rows[0].id < x.id {
        var j :| 0 <= j < |rows[1..]| && rows[1..][j] == x;
        assert rows[j + 1] == x;
      }
      if p(rows[0]) {
        var r := [rows[0]] + rest;
        forall i, j | 0 <= i < j < |r| ensures r[i].id < r[j].id {
          if i == 0 {
            assert r[j] in rest;
          } else {
            assert r[i] == rest[i - 1] && r[j] == rest[j - 1];
          }
        }
      }
    }
  }

  // ---------------------------------------------------------------------------------------------
  // The invariant of the database

  /** Every table's ids increase and are below the counter. */
  predicate Numbered(t: Tables) {
    && Increasing(t.stories) && Below(t.stories, t.nextId)
    && Increasing(t.jokes) && Below(t.jokes, t.nextId)
    && Increasing(t.actionItems) && Below(t.actionItems, t.nextId)
  }

  /** A joke or action item refers to a story that was created, and has that story's owner
      while the story exists (a deleted story leaves its jokes and action items behind). */
  predicate ChildOf(t: Tables, storyId: Id, userId: string) {
    && storyId < t.nextId
    && (Lookup(t.stories, storyId).Some? ==> Lookup(t.stories, storyId).value.userId == userId)
  }

  predicate Owned(t: Tables) {
    && (forall r :: r in t.jokes ==> ChildOf(t, r.doc.storyId, r.doc.userId))
    && (forall r :: r in t.actionItems ==> ChildOf(t, r.doc.storyId, r.doc.userId))
  }

  predicate Consistent(t: Tables) {
    Numbered(t) && Owned(t)
  }

  /** A stored story's id was handed out by the counter. */
  lemma StoryIdBelowNext(t: Tables, id: Id)
    requires Numbered(t) && Lookup(t.stories, id).Some?
    ensures id < t.nextId
  {
    assert Row(id, Lookup(t.stories, id).value) in t.stories;
  }

  /** Two story tables agree on the owner of every story id below `n`. */
  predicate SameOwners(a: seq<Row<Story>>, b: seq<Row<Story>>, n: Id) {
    forall k: Id :: k < n ==>
      (Lookup(a, k).Some? <==> Lookup(b, k).Some?) &&
      (Lookup(a, k).Some? ==> Lookup(a, k).value.userId == Lookup(b, k).value.userId)
  }

  /** Replacing the story table by one with the same owners keeps the children owned. */
  lemma OwnedWithStories(t: Tables, stories: seq<Row<Story>>)
    requires Owned(t) && SameOwners(t.stories, stories, t.nextId)
    ensures Owned(t.(stories := stories))
  {
  }

  /** Deleting stories never breaks ownership: a child of a deleted story has no story to disagree with. */
  lemma OwnedWithoutStory(t: Tables, id: Id)
    requires Owned(t)
    ensures Owned(t.(stories := Without(t.stories, id)))
  {
    forall k ensures Lookup(Without(t.stories, id), k) == if k == id then None else Lookup(t.stories, k) {
      LookupWithout(t.stories, id, k);
    }
  }

  lemma InsertStoryKeepsConsistent(t: Tables, s: Story)
    requires Consistent(t)
    ensures Consistent(t.(stories := t.stories + [Row(t.nextId, s)], nextId := t.nextId + 1))
  {
    var stories := t.stories + [Row(t.nextId, s)];
    AppendKeepsIncreasing(t.stories, Row(t.nextId, s));
    forall k: Id | k < t.nextId ensures Lookup(stories, k) == Lookup(t.stories, k) {
      LookupAppend(t.stories, Row(t.nextId, s), k);
    }
    OwnedWithStories(t, stories);
  }

  lemma InsertJokeKeepsConsistent(t: Tables, j: Joke)
    requires Consistent(t) && ChildOf(t, j.storyId, j.userId)
    ensures Consistent(t.(jokes := t.jokes + [Row(t.nextId, j)], nextId := t.nextId + 1))
  {
    AppendKeepsIncreasing(t.jokes, Row(t.nextId, j));
  }

  lemma InsertActionItemKeepsConsistent(t: Tables, a: ActionItem)
    requires Consistent(t) && ChildOf(t, a.storyId, a.userId)
    ensures Consistent(t.(actionItems := t.actionItems + [Row(t.nextId, a)], nextId := t.nextId + 1))
  {
    AppendKeepsIncreasing(t.actionItems, Row(t.nextId, a));
  }

  lemma PatchKeepsConsistent(t: Tables, id: Id, p: StoryPatch)
    requires Consistent(t)
    ensures Consistent(t.(stories := Patched(t.stories, id, p)))
  {
    PatchedKeepsIds(t.stories, id, p, t.nextId);
    forall k: Id | k < t.nextId
      ensures Lookup(Patched(t.stories, id, p), k).Some? <==> Lookup(t.stories, k).Some?
      ensures Lookup(t.stories, k).Some? ==>
        Lookup(Patched(t.stories, id, p), k).value.userId == Lookup(t.stories, k).value.userId
    {
      LookupPatched(t.stories, id, p, k);
    }
    OwnedWithStories(t, Patched(t.stories, id, p));
  }

  lemma DeleteStoryKeepsConsistent(t: Tables, id: Id)
    requires Consistent(t)
    ensures Consistent(t.(stories := Without(t.stories, id)))
  {
    WithoutKeepsIncreasing(t.stories, id);
    OwnedWithoutStory(t, id);
  }

  lemma DeleteJokeKeepsConsistent(t: Tables, id: Id)
    requires Consistent(t)
    ensures Consistent(t.(jokes := Without(t.jokes, id)))
  {
    WithoutKeepsIncreasing(t.jokes, id);
  }

  lemma DeleteActionItemKeepsConsistent(t: Tables, id: Id)
    requires Consistent(t)
    ensures Consistent(t.(actionItems := Without(t.actionItems, id)))
  {
    WithoutKeepsIncreasing(t.actionItems, id);
  }

  /** The database: its tables, the scheduler's queue and the id counter. */
  class Database {
    var stories: seq<Row<Story>>
    var jokes: seq<Row<Joke>>
    var actionItems: seq<Row<ActionItem>>
    var scheduled: seq<Task>
    var nextId: Id

    function Snapshot(): Tables
      reads this
    {
      Tables(stories, jokes, actionItems, scheduled, nextId)
    }

    predicate Valid()
      reads this
    {
      Consistent(Snapshot())
    }

    constructor ()
      ensures Valid()
      ensures stories == [] && jokes == [] && actionItems == [] && scheduled == []
    {
      stories, jokes, actionItems, scheduled, nextId := [], [], [], [], 0;
    }

    /** `db.insert('stories', s)`: the story gets a fresh id. */
    method InsertStory(s: Story) returns (id: Id)
      requires Valid()
      modifies this
      ensures Valid()
      ensures id == old(nextId) && nextId == id + 1
      ensures stories == old(stories) + [Row(id, s)]
      ensures jokes == old(jokes) && actionItems == old(actionItems) && scheduled == old(scheduled)
    {
      id := nextId;
      InsertStoryKeepsConsistent(Snapshot(), s);
      stories := stories + [Row(id, s)];
      nextId := id + 1;
    }

    /** `db.insert('jokes', j)` of a joke whose story was created and has the joke's owner. */
    method InsertJoke(j: Joke) returns (id: Id)
      requires Valid() && ChildOf(Snapshot(), j.storyId, j.userId)
      modifies this
      ensures Valid()
      ensures id == old(nextId) && nextId == id + 1
      ensures jokes == old(jokes) + [Row(id, j)]
      ensures stories == old(stories) && actionItems == old(actionItems) && scheduled == old(scheduled)
    {
      id := nextId;
      InsertJokeKeepsConsistent(Snapshot(), j);
      jokes := jokes + [Row(id, j)];
      nextId := id + 1;
    }

    /** `db.insert('actionItems', a)` of an item whose story was created and has the item's owner. */
    method InsertActionItem(a: ActionItem) returns (id: Id)
      requires Valid() && ChildOf(Snapshot(), a.storyId, a.userId)
      modifies this
      ensures Valid()
      ensures id == old(nextId) && nextId == id + 1
      ensures actionItems == old(actionItems) + [Row(id, a)]
      ensures stories == old(stories) && jokes == old(jokes) && scheduled == old(scheduled)
    {
      id := nextId;
      InsertActionItemKeepsConsistent(Snapshot(), a);
      actionItems := actionItems + [Row(id, a)];
      nextId := id + 1;
    }

    /** `db.patch(id, p)` on a story; patching an id with no document throws. */
    method PatchStory(id: Id, p: StoryPatch) returns (r: Result<(), Failure>)
      requires Valid()
      modifies this
      ensures Valid()
      ensures r.Err? <==> Lookup(old(stories), id).None?
      ensures r.Err? ==> r.error == NonexistentDocument(id) && stories == old(stories)
      ensures r.Ok? ==> stories == Patched(old(stories), id, p)
      ensures jokes == old(jokes) && actionItems == old(actionItems) && scheduled == old(scheduled)
      ensures nextId == old(nextId)
    {
      if Lookup(stories, id).None? {
        return Err(NonexistentDocument(id));
      }
      PatchKeepsConsistent(Snapshot(), id, p);
      stories := Patched(stories, id, p);
      r := Ok(());
    }

    /** `db.delete(id)` of a story that exists. */
    method DeleteStory(id: Id)
      requires Valid() && Lookup(stories, id).Some?
      modifies this
      ensures Valid()
      ensures stories == Without(old(stories), id)
      ensures jokes == old(jokes) && actionItems == old(actionItems) && scheduled == old(scheduled)
      ensures nextId == old(nextId)
    {
      DeleteStoryKeepsConsistent(Snapshot(), id);
      stories := Without(stories, id);
    }

    /** `db.delete(id)` of a joke that exists. */
    method DeleteJoke(id: Id)
      requires Valid() && Lookup(jokes, id).Some?
      modifies this
      ensures Valid()
      ensures jokes == Without(old(jokes), id)
      ensures stories == old(stories) && actionItems == old(actionItems) && scheduled == old(scheduled)
      ensures nextId == old(nextId)
    {
      DeleteJokeKeepsConsistent(Snapshot(), id);
      jokes := Without(jokes, id);
    }

    /** `db.delete(id)` of an action item that exists. */
    method DeleteActionItem(id: Id)
      requires Valid() && Lookup(actionItems, id).Some?
      modifies this
      ensures Valid()
      ensures actionItems == Without(old(actionItems), id)
      ensures stories == old(stories) && jokes == old(jokes) && scheduled == old(scheduled)
      ensures nextId == old(nextId)
    {
      DeleteActionItemKeepsConsistent(Snapshot(), id);
      actionItems := Without(actionItems, id);
    }

    /** `ctx.scheduler.runAfter(0, ...)`: the scheduled call joins the queue. */
    method Schedule(task: Task)
      requires Valid()
      modifies this
      ensures Valid()
      ensures scheduled == old(scheduled) + [task]
      ensures stories == old(stories) && jokes == old(jokes) && actionItems == old(actionItems)
      ensures nextId == old(nextId)
    {
      scheduled := scheduled + [task];
    }
  }
}
