/**
  The story handlers of convex/stories.ts: creating a story and scheduling its transcription,
  scheduling a joke for a story, reading one story with its action items and jokes, listing a
  user's stories with their joke counts and a user's action items with their story titles,
  counting a story's jokes, and deleting jokes, action items and stories.

  `ctx.userId` is the `caller` parameter. Every handler runs as one transaction: a handler that
  throws leaves the database as it found it.
*/
module Stories {
  import opened Wrappers
  import opened Schema
  import opened Store

  const NotYourStoryForJoke := "Ooops, This is not your story."
  const TranscriptPending := "Ooops, the transcript is still being generated."
  const NotYourStory := "Not your story."
  const NotYourJoke := "Ooops, this is not your joke to delete."
  const NotYourActionItem := "Not your action item"
  const NotYourStoryToRemove := "Not your story"
  const NotYourStoryToCount := "Ooops, this is not your story to count jokes for."

  // ---------------------------------------------------------------------------------------------
  // createStory

  /** The story `createStory` inserts: the caller's, with its audio file, and every flag set. */
  function NewStory(userId: string, audioFileId: string, audioFileUrl: string): Story {
    Story(userId, audioFileId, audioFileUrl, None, None, None, None, None, None,
          true, None, None, true, true, None)
  }

  /** The stored document of a new story holds exactly the six fields the handler writes. */
  lemma NewStoryDocument(userId: string, audioFileId: string, audioFileUrl: string)
    ensures StoryDocument(NewStory(userId, audioFileId, audioFileUrl)) == map[
      FUserId := Str(userId),
      FAudioFileId := Str(audioFileId),
      FAudioFileUrl := Str(audioFileUrl),
      FGeneratingTranscript := Bool(true),
      FGeneratingTitle := Bool(true),
      FGeneratingActionItems := Bool(true)]
    ensures Conforms(StoryDocument(NewStory(userId, audioFileId, audioFileUrl)), Stories)
  {
    var s := NewStory(userId, audioFileId, audioFileUrl);
    var d := map[
      FUserId := Str(userId),
      FAudioFileId := Str(audioFileId),
      FAudioFileUrl := Str(audioFileUrl),
      FGeneratingTranscript := Bool(true),
      FGeneratingTitle := Bool(true),
      FGeneratingActionItems := Bool(true)];
    forall f ensures Stored(StoryDocument(s), f) == Stored(d, f) {
      StoryStored(s, f);
    }
    StoredAgree(StoryDocument(s), d);
    StoryRoundTrip(s);
  }

  /** `createStory`: inserts the caller's new story and schedules its transcription. */
  method CreateStory(db: Database, caller: string, storageId: string, fileUrl: string) returns (id: Id)
    requires db.Valid()
    modifies db
    ensures db.Valid()
    ensures id == old(db.nextId) && db.nextId == id + 1
    ensures db.stories == old(db.stories) + [Row(id, NewStory(caller, storageId, fileUrl))]
    ensures db.scheduled == old(db.scheduled) + [Transcribe(fileUrl, id)]
    ensures db.jokes == old(db.jokes) && db.actionItems == old(db.actionItems)
  {
    id := db.InsertStory(NewStory(caller, storageId, fileUrl));
    db.Schedule(Transcribe(fileUrl, id));
  }

  /** Right after `createStory`, `getStory` finds the new story, with no action items and no jokes. */
  lemma {:induction false} CreatedStoryIsEmpty(t: Tables, caller: string, storageId: string, fileUrl: string)
    requires Consistent(t)
    ensures var s := NewStory(caller, storageId, fileUrl);
      var after := t.(stories := t.stories + [Row(t.nextId, s)], nextId := t.nextId + 1,
                      scheduled := t.scheduled + [Transcribe(fileUrl, t.nextId)]);
      GetStory(after, caller, Some(t.nextId)) == Ok(Some(StoryDetail(t.nextId, s, [], [])))
  {
    var s := NewStory(caller, storageId, fileUrl);
    LookupAppend(t.stories, Row(t.nextId, s), t.nextId);
  }

  // ---------------------------------------------------------------------------------------------
  // createJoke

  /** `story.transcription || "error"`: an absent or empty transcription becomes "error". */
  function JokePrompt(transcription: Option<string>): (p: string)
    ensures p != ""
    ensures transcription.Some? && transcription.value != "" ==> p == transcription.value
    ensures transcription.None? || transcription.value == "" ==> p == "error"
  {
    if transcription.Some? && transcription.value != "" then transcription.value else "error"
  }

  /** `createJoke`: schedules a joke for the caller's story once its transcript is there. A missing
      story fails the owner check, since its owner is `undefined`. */
  method CreateJoke(db: Database, caller: string, id: Id) returns (r: Result<(), Failure>)
    requires db.Valid()
    modifies db
    ensures db.Valid()
    ensures var s := Lookup(old(db.stories), id);
      && (s.None? || s.value.userId != caller ==> r == Err(ConvexError(NotYourStoryForJoke)))
      && (s.Some? && s.value.userId == caller && s.value.generatingTranscript ==>
            r == Err(ConvexError(TranscriptPending)))
      && (r.Ok? <==> s.Some? && s.value.userId == caller && !s.value.generatingTranscript)
      && (r.Err? ==> db.scheduled == old(db.scheduled))
      && (r.Ok? ==>
            s.Some? && db.scheduled == old(db.scheduled) + [TellJoke(id, JokePrompt(s.value.transcription))])
    ensures db.stories == old(db.stories) && db.jokes == old(db.jokes)
    ensures db.actionItems == old(db.actionItems) && db.nextId == old(db.nextId)
  {
    var story := Lookup(db.stories, id);
    if story.None? || story.value.userId != caller {
      return Err(ConvexError(NotYourStoryForJoke));
    }
    if story.value.generatingTranscript {
      return Err(ConvexError(TranscriptPending));
    }
    db.Schedule(TellJoke(id, JokePrompt(story.value.transcription)));
    r := Ok(());
  }

  // ---------------------------------------------------------------------------------------------
  // getStory

  /** A story with the action items and jokes that refer to it. */
  datatype StoryDetail = StoryDetail(
    id: Id,
    story: Story,
    actionItems: seq<Row<ActionItem>>,
    jokes: seq<Row<Joke>>)

  /** `getStory`: `null` without an id; otherwise the caller's story with exactly its action items
      and jokes, in creation order. A missing story fails the owner check. */
  function GetStory(t: Tables, caller: string, id: Option<Id>): (r: Result<Option<StoryDetail>, Failure>)
    ensures id.None? ==> r == Ok(None)
    ensures id.Some? ==>
      (r.Err? <==> Lookup(t.stories, id.value).None? || Lookup(t.stories, id.value).value.userId != caller)
    ensures r.Err? ==> r.error == ConvexError(NotYourStory)
    ensures r.Ok? && id.Some? ==>
      && r.value.Some? && r.value.value.id == id.value
      && Lookup(t.stories, id.value) == Some(r.value.value.story) && r.value.value.story.userId == caller
      && (forall x :: x in r.value.value.actionItems <==> x in t.actionItems && x.doc.storyId == id.value)
      && (forall x :: x in r.value.value.jokes <==> x in t.jokes && x.doc.storyId == id.value)
      && Subsequence(r.value.value.actionItems, t.actionItems) && Subsequence(r.value.value.jokes, t.jokes)
  {
    if id.None? then Ok(None)
    else
      var story := Lookup(t.stories, id.value);
      if story.None? || story.value.userId != caller then Err(ConvexError(NotYourStory))
      else Ok(Some(StoryDetail(id.value, story.value,
                               ActionItemsOfStory(t.actionItems, id.value),
                               JokesOfStory(t.jokes, id.value))))
  }

  // ---------------------------------------------------------------------------------------------
  // getActionItems

  /** An action item with its `_id` and the title of its story. */
  datatype ActionItemWithTitle = ActionItemWithTitle(id: Id, item: ActionItem, title: Option<string>)

  /** The items whose story still exists, in their order. */
  function WithLiveStory(stories: seq<Row<Story>>, items: seq<Row<ActionItem>>): (r: seq<Row<ActionItem>>)
    ensures forall x :: x in r <==> x in items && Lookup(stories, x.doc.storyId).Some?
    ensures Subsequence(r, items)
  {
    Filter(items, (x: Row<ActionItem>) => Lookup(stories, x.doc.storyId).Some?)
  }

  lemma WithLiveStoryAppend(stories: seq<Row<Story>>, items: seq<Row<ActionItem>>, x: Row<ActionItem>)
    ensures WithLiveStory(stories, items + [x]) ==
      WithLiveStory(stories, items) + (if Lookup(stories, x.doc.storyId).Some? then [x] else [])
  {
    FilterAppend(items, x, (x: Row<ActionItem>) => Lookup(stories, x.doc.storyId).Some?);
  }

  /** The items whose story exists, each with its story's title, in their order. */
  function WithTitles(stories: seq<Row<Story>>, items: seq<Row<ActionItem>>): seq<ActionItemWithTitle> {
    if items == [] then []
    else
      var last := items[|items| - 1];
      var front := WithTitles(stories, items[..|items| - 1]);
      match Lookup(stories, last.doc.storyId)
      case None => front
      case Some(s) => front + [ActionItemWithTitle(last.id, last.doc, s.title)]
  }

  /** The titled items are the items whose story exists, one for one and in order, each with its
      story's title. */
  lemma {:induction false} WithTitlesOfLiveItems(stories: seq<Row<Story>>, items: seq<Row<ActionItem>>)
    ensures var r := WithTitles(stories, items);
      var kept := WithLiveStory(stories, items);
      && |r| == |kept|
      && forall i :: 0 <= i < |r| ==>
           && r[i].id == kept[i].id && r[i].item == kept[i].doc
           && Lookup(stories, kept[i].doc.storyId).Some?
           && r[i].title == Lookup(stories, kept[i].doc.storyId).value.title
  {
    if items != [] {
      var front := items[..|items| - 1];
      var last := items[|items| - 1];
      WithTitlesOfLiveItems(stories, front);
      assert front + [last] == items;
      WithLiveStoryAppend(stories, front, last);
    }
  }

  lemma WithTitlesStep(stories: seq<Row<Story>>, items: seq<Row<ActionItem>>, k: nat)
    requires k < |items|
    ensures WithTitles(stories, items[..k + 1]) ==
      match Lookup(stories, items[k].doc.storyId)
      case None => WithTitles(stories, items[..k])
      case Some(s) =>
        WithTitles(stories, items[..k]) + [ActionItemWithTitle(items[k].id, items[k].doc, s.title)]
  {
    assert items[..k + 1][..k] == items[..k];
  }

  /** `getActionItems`: the caller's action items in creation order, skipping those whose story is
      gone, each with its story's title. */
  method GetActionItems(t: Tables, caller: string) returns (r: seq<ActionItemWithTitle>)
    ensures r == WithTitles(t.stories, ActionItemsOfUser(t.actionItems, caller))
  {
    var items := ActionItemsOfUser(t.actionItems, caller);
    r := [];
    for k := 0 to |items|
      invariant r == WithTitles(t.stories, items[..k])
    {
      WithTitlesStep(t.stories, items, k);
      var story := Lookup(t.stories, items[k].doc.storyId);
      if story.Some? {
        r := r + [ActionItemWithTitle(items[k].id, items[k].doc, story.value.title)];
      }
    }
    assert items[..|items|] == items;
  }

  // ---------------------------------------------------------------------------------------------
  // getStories

  /** A story with `count`, the number of its jokes. */
  datatype StoryWithCount = StoryWithCount(count: nat, id: Id, story: Story)

  function WithCount(t: Tables, row: Row<Story>): StoryWithCount {
    StoryWithCount(|JokesOfStory(t.jokes, row.id)|, row.id, row.doc)
  }

  /** Each row with its joke count, in order. */
  function WithCounts(t: Tables, rows: seq<Row<Story>>): (r: seq<StoryWithCount>)
    ensures |r| == |rows|
    ensures forall i :: 0 <= i < |r| ==>
      Row(r[i].id, r[i].story) == rows[i] && r[i].count == |JokesOfStory(t.jokes, rows[i].id)|
  {
    seq(|rows|, i requires 0 <= i < |rows| => WithCount(t, rows[i]))
  }

  /** `getStories`: the caller's stories in creation order, each with the number of its jokes. */
  function GetStories(t: Tables, caller: string): (r: seq<StoryWithCount>)
    ensures |r| == |StoriesOfUser(t.stories, caller)|
    ensures forall i :: 0 <= i < |r| ==>
      && Row(r[i].id, r[i].story) == StoriesOfUser(t.stories, caller)[i]
      && Row(r[i].id, r[i].story) in t.stories && r[i].story.userId == caller
      && r[i].count == |JokesOfStory(t.jokes, r[i].id)|
    ensures forall x :: x in t.stories && x.doc.userId == caller ==>
      exists i :: 0 <= i < |r| && r[i].id == x.id && r[i].story == x.doc
  {
    var mine := StoriesOfUser(t.stories, caller);
    var r := WithCounts(t, mine);
    assert forall x :: x in mine ==> exists i :: 0 <= i < |mine| && mine[i] == x;
    r
  }

  /** In a table without repeated ids, a story's joke count counts each of its jokes once. */
  lemma JokeCountIsNumberOfJokes(jokes: seq<Row<Joke>>, storyId: Id)
    requires Increasing(jokes)
    ensures |JokesOfStory(jokes, storyId)| == |set x | x in jokes && x.doc.storyId == storyId|
  {
    var r := JokesOfStory(jokes, storyId);
    FilterKeepsIncreasing(jokes, (x: Row<Joke>) => x.doc.storyId == storyId);
    assert (set x | x in jokes && x.doc.storyId == storyId) == (set x | x in r);
    DistinctCard(r);
  }

  /** A sequence of rows with increasing ids has as many elements as its set of rows. */
  lemma {:induction false} DistinctCard<T>(rows: seq<Row<T>>)
    requires Increasing(rows)
    ensures |set x | x in rows| == |rows|
  {
    if rows != [] {
      IncreasingTail(rows);
      DistinctCard(rows[1..]);
      HeadNotInTail(rows);
      RowSetSplit(rows);
    }
  }

  lemma IncreasingTail<T>(rows: seq<Row<T>>)
    requires Increasing(rows) && rows != []
    ensures Increasing(rows[1..])
  {
    var rest := rows[1..];
    forall i, j | 0 <= i < j < |rest| ensures rest[i].id < rest[j].id {
      assert rest[i] == rows[i + 1] && rest[j] == rows[j + 1];
    }
  }

  lemma HeadNotInTail<T>(rows: seq<Row<T>>)
    requires Increasing(rows) && rows != []
    ensures rows[0] !in rows[1..]
  {
    var rest := rows[1..];
    forall j | 0 <= j < |rest| ensures rest[j] != rows[0] {
      assert rest[j] == rows[j + 1];
    }
  }

  lemma RowSetSplit<T>(rows: seq<Row<T>>)
    requires rows != []
    ensures (set x | x in rows) == {rows[0]} + (set x | x in rows[1..])
  {
    assert rows == [rows[0]] + rows[1..];
  }

  // ---------------------------------------------------------------------------------------------
  // jokeCountForStory

  /** `jokeCountForStory`: the number of the story's jokes, or an error when one of them is another
      user's. */
  method JokeCountForStory(t: Tables, caller: string, storyId: Id) returns (r: Result<nat, Failure>)
    ensures r.Err? <==> exists x :: x in t.jokes && x.doc.storyId == storyId && x.doc.userId != caller
    ensures r.Err? ==> r.error == ConvexError(NotYourStoryToCount)
    ensures r.Ok? ==> r.value == |JokesOfStory(t.jokes, storyId)|
  {
    var jokes := JokesOfStory(t.jokes, storyId);
    for k := 0 to |jokes|
      invariant forall i :: 0 <= i < k ==> jokes[i].doc.userId == caller
    {
      if jokes[k].doc.userId != caller {
        assert jokes[k] in jokes;
        return Err(ConvexError(NotYourStoryToCount));
      }
    }
    assert forall x :: x in jokes ==> x.doc.userId == caller by {
      forall x | x in jokes ensures x.doc.userId == caller {
        var i :| 0 <= i < |jokes| && jokes[i] == x;
      }
    }
    r := Ok(|jokes|);
  }

  /** Every joke of a story that exists has the story's owner, so counting the jokes of one's own
      story never fails, and gives the count `getStories` shows. */
  lemma OwnStoryJokesAreOwn(t: Tables, caller: string, storyId: Id)
    requires Consistent(t)
    requires Lookup(t.stories, storyId).Some? && Lookup(t.stories, storyId).value.userId == caller
    ensures !exists x :: x in t.jokes && x.doc.storyId == storyId && x.doc.userId != caller
    ensures forall i :: 0 <= i < |GetStories(t, caller)| && GetStories(t, caller)[i].id == storyId ==>
      GetStories(t, caller)[i].count == |JokesOfStory(t.jokes, storyId)|
  {
  }

  // ---------------------------------------------------------------------------------------------
  // removeJoke, removeActionItem, removeStory

  /** `removeJoke`: deleting a missing joke does nothing; deleting another user's joke throws. */
  method RemoveJoke(db: Database, caller: string, id: Id) returns (r: Result<(), Failure>)
    requires db.Valid()
    modifies db
    ensures db.Valid()
    ensures var j := Lookup(old(db.jokes), id);
      && (j.None? ==> r.Ok? && db.jokes == old(db.jokes))
      && (j.Some? && j.value.userId != caller ==>
            r == Err(ConvexError(NotYourJoke)) && db.jokes == old(db.jokes))
      && (j.Some? && j.value.userId == caller ==>
            r.Ok? && db.jokes == Without(old(db.jokes), id) && |db.jokes| == |old(db.jokes)| - 1)
    ensures db.stories == old(db.stories) && db.actionItems == old(db.actionItems)
    ensures db.scheduled == old(db.scheduled) && db.nextId == old(db.nextId)
  {
    var existing := Lookup(db.jokes, id);
    if existing.Some? {
      if existing.value.userId != caller {
        return Err(ConvexError(NotYourJoke));
      }
      WithoutRemovesOne(db.jokes, id);
      db.DeleteJoke(id);
    }
    r := Ok(());
  }

  /** `removeActionItem`: deleting a missing item does nothing; deleting another user's item throws. */
  method RemoveActionItem(db: Database, caller: string, id: Id) returns (r: Result<(), Failure>)
    requires db.Valid()
    modifies db
    ensures db.Valid()
    ensures var a := Lookup(old(db.actionItems), id);
      && (a.None? ==> r.Ok? && db.actionItems == old(db.actionItems))
      && (a.Some? && a.value.userId != caller ==>
            r == Err(ConvexError(NotYourActionItem)) && db.actionItems == old(db.actionItems))
      && (a.Some? && a.value.userId == caller ==>
            r.Ok? && db.actionItems == Without(old(db.actionItems), id) &&
            |db.actionItems| == |old(db.actionItems)| - 1)
    ensures db.stories == old(db.stories) && db.jokes == old(db.jokes)
    ensures db.scheduled == old(db.scheduled) && db.nextId == old(db.nextId)
  {
    var existing := Lookup(db.actionItems, id);
    if existing.Some? {
      if existing.value.userId != caller {
        return Err(ConvexError(NotYourActionItem));
      }
      WithoutRemovesOne(db.actionItems, id);
      db.DeleteActionItem(id);
    }
    r := Ok(());
  }

  /** `removeStory`: deleting a missing story does nothing; deleting another user's story throws.
      The story's jokes and action items stay. */
  method RemoveStory(db: Database, caller: string, id: Id) returns (r: Result<(), Failure>)
    requires db.Valid()
    modifies db
    ensures db.Valid()
    ensures var s := Lookup(old(db.stories), id);
      && (s.None? ==> r.Ok? && db.stories == old(db.stories))
      && (s.Some? && s.value.userId != caller ==>
            r == Err(ConvexError(NotYourStoryToRemove)) && db.stories == old(db.stories))
      && (s.Some? && s.value.userId == caller ==>
            r.Ok? && db.stories == Without(old(db.stories), id) && |db.stories| == |old(db.stories)| - 1)
    ensures db.jokes == old(db.jokes) && db.actionItems == old(db.actionItems)
    ensures db.scheduled == old(db.scheduled) && db.nextId == old(db.nextId)
  {
    var existing := Lookup(db.stories, id);
    if existing.Some? {
      if existing.value.userId != caller {
        return Err(ConvexError(NotYourStoryToRemove));
      }
      WithoutRemovesOne(db.stories, id);
      db.DeleteStory(id);
    }
    r := Ok(());
  }

  /** After `removeStory`, the story is gone and `getStory` of it throws, while its jokes and action
      items stay in their tables, each now referring to a story that does not exist. */
  lemma RemovedStoryLeavesChildren(t: Tables, caller: string, id: Id)
    ensures var after := t.(stories := Without(t.stories, id));
      && Lookup(after.stories, id).None?
      && GetStory(after, caller, Some(id)) == Err(ConvexError(NotYourStory))
      && (forall r :: r in JokesOfStory(t.jokes, id) ==>
            r in after.jokes && Lookup(after.stories, r.doc.storyId).None?)
      && (forall r :: r in ActionItemsOfStory(t.actionItems, id) ==>
            r in after.actionItems && Lookup(after.stories, r.doc.storyId).None?)
  {
    LookupWithout(t.stories, id, id);
  }
}
