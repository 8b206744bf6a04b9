/**
  The handlers of convex/together.ts: extracting a title, a summary and action items from a
  transcript and saving them, computing and saving a story's embedding, and searching a user's
  stories by similarity to a query.

  The calls to the language model and to the embedding model are function parameters: the
  extraction returns `None` where the call throws, and the embedder maps the text it is given to a
  vector, or to `None` where the embeddings call throws. The vector search engine's ranking is a
  function parameter too: it maps a query vector to candidate hits over the whole table, best
  first, and the model applies what the handler asks
  of the search (the index, the owner filter and the limit).
*/
module Together {
  import opened Wrappers
  import opened Schema
  import opened Store

  // ---------------------------------------------------------------------------------------------
  // Text

  /** The literal two-character text the handlers replace before embedding (a slash and an `n`,
      not a newline). */
  const SlashN := "/n"

  predicate OccursAt(s: string, pat: string, i: nat) {
    i + |pat| <= |s| && s[i..i + |pat|] == pat
  }

  /** `i` is the first position where `pat` occurs in `s`. */
  predicate FirstOccurrence(s: string, pat: string, i: nat) {
    OccursAt(s, pat, i) && forall j: nat :: j < i ==> !OccursAt(s, pat, j)
  }

  /** The first position at or after `i` where `pat` occurs in `s`. */
  function IndexOfFrom(s: string, pat: string, i: nat): (r: Option<nat>)
    requires i <= |s|
    ensures r.Some? ==> i <= r.value <= |s| && OccursAt(s, pat, r.value)
    ensures r.Some? ==> forall j: nat :: i <= j < r.value ==> !OccursAt(s, pat, j)
    ensures r.None? ==> forall j: nat :: i <= j ==> !OccursAt(s, pat, j)
    decreases |s| - i
  {
    if OccursAt(s, pat, i) then Some(i)
    else if i == |s| then None
    else IndexOfFrom(s, pat, i + 1)
  }

  /** JavaScript's `s.replace(pat, rep)` with a string pattern: the first occurrence of `pat` is
      replaced by `rep`, and a text without `pat` is returned unchanged. */
  function ReplaceFirst(s: string, pat: string, rep: string): (r: string)
    ensures (forall j: nat :: !OccursAt(s, pat, j)) ==> r == s
    ensures forall i: nat :: FirstOccurrence(s, pat, i) ==> r == s[..i] + rep + s[i + |pat|..]
  {
    match IndexOfFrom(s, pat, 0)
    case None => s
    case Some(i) => s[..i] + rep + s[i + |pat|..]
  }

  /** The text handed to the embedder for a transcript or a query. */
  function EmbeddingInput(text: string): string {
    ReplaceFirst(text, SlashN, " ")
  }

  /** Only the first "/n" is replaced: a second one stays. */
  lemma {:induction false} OnlyFirstSlashNIsReplaced()
    ensures EmbeddingInput("a/nb/nc") == "a b/nc"
  {
    var s := "a/nb/nc";
    assert s[0..2][0] == 'a';
    assert s[1..3] == SlashN;
    assert FirstOccurrence(s, SlashN, 1);
    assert s[..1] + " " + s[3..] == "a b/nc";
  }

  /** A newline is not the two characters "/n": a text with a newline and no slash is embedded as it is. */
  lemma {:induction false} NewlineIsKept(s: string)
    requires forall k :: 0 <= k < |s| ==> s[k] != '/'
    ensures EmbeddingInput(s) == s
  {
    forall j: nat ensures !OccursAt(s, SlashN, j) {
      if j + 2 <= |s| {
        assert s[j..j + 2][0] == s[j];
      }
    }
  }

  /** Replacing two characters by one shortens the text by one, or leaves it as it is. */
  lemma EmbeddingInputLength(s: string)
    ensures |EmbeddingInput(s)| == |s| || |EmbeddingInput(s)| == |s| - 1
  {
    var r := IndexOfFrom(s, SlashN, 0);
    if r.Some? {
      assert FirstOccurrence(s, SlashN, r.value);
    }
  }

  // ---------------------------------------------------------------------------------------------
  // chat and saveSummary

  /** What the extraction returns: the `StorySchema` object. */
  datatype Extraction = Extraction(title: string, summary: string, actionItems: seq<string>)

  const FailedSummary := "Summary failed to generate"
  const FallbackTitle := "Title"

  /** The action item rows `saveSummary` inserts for `tasks`, numbered from `first`. */
  function NewActionItems(first: Id, userId: string, storyId: Id, tasks: seq<string>): seq<Row<ActionItem>> {
    seq(|tasks|, i requires 0 <= i < |tasks| => Row(first + i, ActionItem(userId, storyId, tasks[i])))
  }

  /** The database after `saveSummary` of a story that exists: the story has the summary and the
      title and no pending title or action items, and one action item per task is appended, owned
      by the story's owner. */
  function Summarized(t: Tables, id: Id, summary: string, title: string, tasks: seq<string>): Tables
    requires Lookup(t.stories, id).Some?
  {
    var owner := Lookup(t.stories, id).value.userId;
    t.(stories := Patched(Patched(t.stories, id, SummaryPatch(summary, title)), id, ActionItemsDonePatch),
       actionItems := t.actionItems + NewActionItems(t.nextId, owner, id, tasks),
       nextId := t.nextId + |tasks|)
  }

  /** `saveSummary`. Its first `db.patch` throws for a missing story, so then nothing is written
      (the `if (!story)` early return after it cannot be reached). */
  method SaveSummary(db: Database, id: Id, summary: string, title: string, tasks: seq<string>)
    returns (r: Result<(), Failure>)
    requires db.Valid()
    modifies db
    ensures db.Valid()
    ensures r.Err? <==> Lookup(old(db.stories), id).None?
    ensures r.Err? ==> r.error == NonexistentDocument(id) && db.Snapshot() == old(db.Snapshot())
    ensures r.Ok? ==> db.Snapshot() == Summarized(old(db.Snapshot()), id, summary, title, tasks)
  {
    var patched := db.PatchStory(id, SummaryPatch(summary, title));
    if patched.Err? {
      return patched;
    }
    LookupPatched(old(db.stories), id, SummaryPatch(summary, title), id);
    var story := Lookup(db.stories, id);
    assert story.Some?;
    InsertActionItems(db, story.value.userId, id, tasks);
    var done := db.PatchStory(id, ActionItemsDonePatch);
    assert done.Ok?;
    r := Ok(());
  }

  /** The loop of `saveSummary`: one action item per task, in the order of the tasks. */
  method InsertActionItems(db: Database, owner: string, id: Id, tasks: seq<string>)
    requires db.Valid() && Lookup(db.stories, id).Some? && Lookup(db.stories, id).value.userId == owner
    modifies db
    ensures db.Valid()
    ensures db.actionItems == old(db.actionItems) + NewActionItems(old(db.nextId), owner, id, tasks)
    ensures db.nextId == old(db.nextId) + |tasks|
    ensures db.stories == old(db.stories) && db.jokes == old(db.jokes) && db.scheduled == old(db.scheduled)
  {
    var k := 0;
    while k < |tasks|
      invariant 0 <= k <= |tasks|
      invariant db.Valid()
      invariant db.stories == old(db.stories) && db.jokes == old(db.jokes)
      invariant db.scheduled == old(db.scheduled)
      invariant db.actionItems == old(db.actionItems) + NewActionItems(old(db.nextId), owner, id, tasks[..k])
      invariant db.nextId == old(db.nextId) + k
    {
      NewActionItemsStep(old(db.actionItems), old(db.nextId), owner, id, tasks, k);
      StoryIdBelowNext(db.Snapshot(), id);
      var _ := db.InsertActionItem(ActionItem(owner, id, tasks[k]));
      k := k + 1;
    }
    assert tasks[..k] == tasks;
  }

  lemma NewActionItemsStep(items: seq<Row<ActionItem>>, first: Id, userId: string, storyId: Id,
                           tasks: seq<string>, k: nat)
    requires k < |tasks|
    ensures items + NewActionItems(first, userId, storyId, tasks[..k + 1]) ==
      items + NewActionItems(first, userId, storyId, tasks[..k]) +
        [Row(first + k, ActionItem(userId, storyId, tasks[k]))]
  {
    var a := NewActionItems(first, userId, storyId, tasks[..k + 1]);
    var b := NewActionItems(first, userId, storyId, tasks[..k]) +
      [Row(first + k, ActionItem(userId, storyId, tasks[k]))];
    assert a == b;
  }

  /** After `saveSummary` the story has the summary and the title, its title and action items are no
      longer pending, and nothing else about it changed; no other story changed. */
  lemma SummarizedStory(t: Tables, id: Id, summary: string, title: string, tasks: seq<string>, k: Id)
    requires Lookup(t.stories, id).Some?
    ensures var s := Lookup(t.stories, id).value;
      Lookup(Summarized(t, id, summary, title, tasks).stories, k) ==
        if k == id then Some(s.(summary := Some(summary), title := Some(title), generatingTitle := false,
                                generatingActionItems := false))
        else Lookup(t.stories, k)
  {
    LookupPatched(t.stories, id, SummaryPatch(summary, title), k);
    LookupPatched(Patched(t.stories, id, SummaryPatch(summary, title)), id, ActionItemsDonePatch, k);
  }

  /** The new action items all belong to the summarized story. */
  lemma NewActionItemsOfStory(first: Id, userId: string, storyId: Id, tasks: seq<string>, k: Id)
    ensures ActionItemsOfStory(NewActionItems(first, userId, storyId, tasks), k) ==
      if k == storyId then NewActionItems(first, userId, storyId, tasks) else []
  {
    var rows := NewActionItems(first, userId, storyId, tasks);
    forall x | x in rows ensures x.doc.storyId == storyId {
      var i :| 0 <= i < |rows| && rows[i] == x;
    }
    if k == storyId {
      ActionItemsOfStoryAll(rows, k);
    } else {
      ActionItemsOfStoryNone(rows, k);
    }
  }

  /** `getStory` after `saveSummary` lists the story's earlier action items, then one per task in
      the order of the tasks; every other story's action items are as they were. */
  lemma SummarizedActionItems(t: Tables, id: Id, summary: string, title: string, tasks: seq<string>, k: Id)
    requires Lookup(t.stories, id).Some?
    ensures var owner := Lookup(t.stories, id).value.userId;
      ActionItemsOfStory(Summarized(t, id, summary, title, tasks).actionItems, k) ==
        ActionItemsOfStory(t.actionItems, k) +
          (if k == id then NewActionItems(t.nextId, owner, id, tasks) else [])
  {
    var owner := Lookup(t.stories, id).value.userId;
    ActionItemsOfStoryConcat(t.actionItems, NewActionItems(t.nextId, owner, id, tasks), k);
    NewActionItemsOfStory(t.nextId, owner, id, tasks, k);
  }

  /** `chat`: extracts from the transcript and saves the result. When the extraction or that save
      throws, the catch saves the fallback summary and title with no action items; the save of a
      missing story throws again, out of the handler. */
  method Chat(db: Database, id: Id, transcript: string, extract: string -> Option<Extraction>)
    returns (r: Result<(), Failure>)
    requires db.Valid()
    modifies db
    ensures db.Valid()
    ensures r.Err? <==> Lookup(old(db.stories), id).None?
    ensures r.Err? ==> db.Snapshot() == old(db.Snapshot())
    ensures r.Ok? ==> var e := extract(transcript);
      db.Snapshot() ==
        if e.Some?
        then Summarized(old(db.Snapshot()), id, e.value.summary, e.value.title, e.value.actionItems)
        else Summarized(old(db.Snapshot()), id, FailedSummary, FallbackTitle, [])
  {
    var e := extract(transcript);
    if e.Some? {
      r := SaveSummary(db, id, e.value.summary, e.value.title, e.value.actionItems);
      if r.Ok? {
        return;
      }
    }
    r := SaveSummary(db, id, FailedSummary, FallbackTitle, []);
  }

  /** `getTranscript`: the story's transcription, or nothing for a missing story. */
  function GetTranscript(t: Tables, id: Id): (r: Option<string>)
    ensures r.Some? ==> exists s :: Row(id, s) in t.stories && s.transcription == r
  {
    var story := Lookup(t.stories, id);
    if story.None? then None else story.value.transcription
  }

  /** In a table with increasing ids, `getTranscript` returns the transcription of the story with
      that id, and nothing when there is none. */
  lemma TranscriptOfStory(t: Tables, i: nat)
    requires Increasing(t.stories) && i < |t.stories|
    ensures GetTranscript(t, t.stories[i].id) == t.stories[i].doc.transcription
  {
    LookupFindsRow(t.stories, i);
  }

  lemma TranscriptOfMissingStory(t: Tables, id: Id)
    requires forall row :: row in t.stories ==> row.id != id
    ensures GetTranscript(t, id) == None
  {
  }

  // ---------------------------------------------------------------------------------------------
  // embed and saveEmbedding

  /** `saveEmbedding`: the story's embedding is replaced; `db.patch` throws for a missing story. */
  method SaveEmbedding(db: Database, id: Id, embedding: seq<real>) returns (r: Result<(), Failure>)
    requires db.Valid()
    modifies db
    ensures db.Valid()
    ensures r.Err? <==> Lookup(old(db.stories), id).None?
    ensures r.Err? ==> r.error == NonexistentDocument(id) && db.Snapshot() == old(db.Snapshot())
    ensures r.Ok? ==>
      db.Snapshot() == old(db.Snapshot()).(stories := Patched(old(db.stories), id, EmbeddingPatch(embedding)))
  {
    r := db.PatchStory(id, EmbeddingPatch(embedding));
  }

  /** `embed`: embeds the transcript (its first "/n" replaced) and saves the embedding. When the
      embeddings call throws, the action fails before `saveEmbedding` runs. */
  method Embed(db: Database, id: Id, transcript: string, embedder: string -> Option<seq<real>>)
    returns (r: Result<(), Failure>)
    requires db.Valid()
    modifies db
    ensures db.Valid()
    ensures var e := embedder(EmbeddingInput(transcript));
      && (r.Err? <==> e.None? || Lookup(old(db.stories), id).None?)
      && (e.None? ==> r == Err(CallFailed))
      && (e.Some? && r.Err? ==> r == Err(NonexistentDocument(id)))
      && (r.Err? ==> db.Snapshot() == old(db.Snapshot()))
      && (r.Ok? ==>
            db.Snapshot() ==
              old(db.Snapshot()).(stories := Patched(old(db.stories), id, EmbeddingPatch(e.value))))
  {
    var embedding := embedder(EmbeddingInput(transcript));
    if embedding.None? {
      return Err(CallFailed);
    }
    r := SaveEmbedding(db, id, embedding.value);
  }

  // ---------------------------------------------------------------------------------------------
  // similarstories

  /** What `similarstories` returns per hit. */
  datatype SearchResult = SearchResult(id: Id, score: real)

  /** The `limit` of the handler's vector search. */
  const SearchLimit := 16

  /** A story the search may return to `caller`: it exists, is the caller's (the `userId` filter)
      and is in the `by_embedding` index. */
  predicate Searchable(t: Tables, caller: string, id: Id) {
    && Lookup(t.stories, id).Some?
    && Lookup(t.stories, id).value.userId == caller
    && Indexed(Lookup(t.stories, id).value)
  }

  /** The candidate hits the search keeps for `caller`, in ranking order. */
  function Hits(t: Tables, caller: string, ranked: seq<SearchResult>): (r: seq<SearchResult>)
    ensures forall h :: h in r <==> h in ranked && Searchable(t, caller, h.id)
    ensures Subsequence(r, ranked)
  {
    Filter(ranked, (h: SearchResult) => Searchable(t, caller, h.id))
  }

  /** `similarstories`: embeds the query (its first "/n" replaced) and searches the caller's indexed
      stories, keeping the first 16 hits in ranking order. The action fails when the embeddings
      call throws, and a query vector whose length is not the index's is refused by the search. */
  function SimilarStories(t: Tables, caller: string, query: string, embedder: string -> Option<seq<real>>,
                          rank: seq<real> -> seq<SearchResult>): (r: Result<seq<SearchResult>, Failure>)
    ensures var e := embedder(EmbeddingInput(query));
      && (r.Err? <==> e.None? || |e.value| != ByEmbedding.dimensions)
      && (e.None? ==> r == Err(CallFailed))
      && (e.Some? && r.Err? ==> r.error == InvalidVector(|e.value|))
      && (r.Ok? ==>
            var h := Hits(t, caller, rank(e.value));
            && |r.value| == (if |h| < SearchLimit then |h| else SearchLimit)
            && r.value == h[..|r.value|]
            && Subsequence(r.value, rank(e.value))
            && (forall x :: x in r.value ==> Searchable(t, caller, x.id))
            && (|r.value| < SearchLimit ==>
                  forall x :: x in rank(e.value) && Searchable(t, caller, x.id) ==> x in r.value))
  {
    var e := embedder(EmbeddingInput(query));
    if e.None? then Err(CallFailed)
    else if |e.value| != ByEmbedding.dimensions then Err(InvalidVector(|e.value|))
    else
      var hits := Hits(t, caller, rank(e.value));
      if |hits| <= SearchLimit then
        assert hits[..|hits|] == hits;
        Ok(hits)
      else
        SubsequencePrefix(hits, rank(e.value), SearchLimit);
        assert forall x :: x in hits[..SearchLimit] ==> x in hits;
        Ok(hits[..SearchLimit])
  }

  /** A prefix of a subsequence is a subsequence. */
  lemma {:induction false} SubsequencePrefix<T>(xs: seq<T>, ys: seq<T>, n: nat)
    requires Subsequence(xs, ys) && n <= |xs|
    ensures Subsequence(xs[..n], ys)
    decreases |ys|
  {
    if n > 0 {
      assert ys != [];
      if xs[0] == ys[0] {
        SubsequencePrefix(xs[1..], ys[1..], n - 1);
        assert xs[..n][1..] == xs[1..][..n - 1];
      } else {
        SubsequencePrefix(xs, ys[1..], n);
      }
    }
  }

  /** Scores do not increase along the sequence. */
  predicate ByScore(hits: seq<SearchResult>) {
    forall i, j :: 0 <= i < j < |hits| ==> hits[i].score >= hits[j].score
  }

  /** A subsequence of hits ordered by score is ordered by score. */
  lemma {:induction false} SubsequenceKeepsByScore(xs: seq<SearchResult>, ys: seq<SearchResult>)
    requires Subsequence(xs, ys) && ByScore(ys)
    ensures ByScore(xs)
    ensures xs != [] ==> exists k :: 0 <= k < |ys| && ys[k] == xs[0]
    decreases |ys|
  {
    if xs != [] {
      assert ys != [];
      assert forall k :: 0 <= k < |ys[1..]| ==> ys[1..][k] == ys[k + 1];
      if xs[0] == ys[0] {
        SubsequenceKeepsByScore(xs[1..], ys[1..]);
        forall i, j | 0 <= i < j < |xs| ensures xs[i].score >= xs[j].score {
          if i == 0 {
            SubsequenceMember(xs[1..], ys[1..], j - 1);
          } else {
            assert xs[i] == xs[1..][i - 1] && xs[j] == xs[1..][j - 1];
          }
        }
      } else {
        SubsequenceKeepsByScore(xs, ys[1..]);
      }
    }
  }

  /** Every element of a subsequence is an element of the sequence. */
  lemma {:induction false} SubsequenceMember<T>(xs: seq<T>, ys: seq<T>, i: nat)
    requires Subsequence(xs, ys) && i < |xs|
    ensures exists k :: 0 <= k < |ys| && ys[k] == xs[i]
    decreases |ys|
  {
    assert ys != [];
    if xs[0] == ys[0] {
      if i > 0 {
        SubsequenceMember(xs[1..], ys[1..], i - 1);
        var k :| 0 <= k < |ys[1..]| && ys[1..][k] == xs[1..][i - 1];
        assert ys[k + 1] == xs[i];
      }
    } else {
      SubsequenceMember(xs, ys[1..], i);
      var k :| 0 <= k < |ys[1..]| && ys[1..][k] == xs[i];
      assert ys[k + 1] == xs[i];
    }
  }

  /** When the engine ranks best first, the results come best first: scores do not increase. */
  lemma SimilarStoriesByScore(t: Tables, caller: string, query: string, embedder: string -> Option<seq<real>>,
                              rank: seq<real> -> seq<SearchResult>)
    requires embedder(EmbeddingInput(query)).Some? ==> ByScore(rank(embedder(EmbeddingInput(query)).value))
    ensures var r := SimilarStories(t, caller, query, embedder, rank); r.Ok? ==> ByScore(r.value)
  {
    var r := SimilarStories(t, caller, query, embedder, rank);
    if r.Ok? {
      SubsequenceKeepsByScore(r.value, rank(embedder(EmbeddingInput(query)).value));
    }
  }

  /** A story whose saved embedding has the index's length can be found by its owner's search. */
  lemma EmbeddedStoryIsSearchable(t: Tables, id: Id, embedding: seq<real>)
    requires Lookup(t.stories, id).Some? && |embedding| == ByEmbedding.dimensions
    ensures var after := t.(stories := Patched(t.stories, id, EmbeddingPatch(embedding)));
      Searchable(after, Lookup(t.stories, id).value.userId, id)
  {
    LookupPatched(t.stories, id, EmbeddingPatch(embedding), id);
  }
}
