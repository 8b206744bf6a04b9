/**
  The handlers of convex/joke.ts, an earlier copy of the story handlers: `createJoke` records an
  uploaded story exactly as `createStory` does, and `getStory` returns the story with its action
  items but without its jokes.
*/
module LegacyJoke {
  import opened Wrappers
  import opened Schema
  import opened Store
  import Stories

  /** `createJoke`: inserts the same new story as `createStory` and schedules its transcription. */
  method CreateJoke(db: Database, caller: string, storageId: string, fileUrl: string) returns (id: Id)
    requires db.Valid()
    modifies db
    ensures db.Valid()
    ensures id == old(db.nextId) && db.nextId == id + 1
    ensures db.stories == old(db.stories) + [Row(id, Stories.NewStory(caller, storageId, fileUrl))]
    ensures db.scheduled == old(db.scheduled) + [Transcribe(fileUrl, id)]
    ensures db.jokes == old(db.jokes) && db.actionItems == old(db.actionItems)
  {
    id := db.InsertStory(Stories.NewStory(caller, storageId, fileUrl));
    db.Schedule(Transcribe(fileUrl, id));
  }

  /** What this `getStory` returns: the story with its `_id` and its action items. */
  datatype LegacyStoryDetail = LegacyStoryDetail(id: Id, story: Story, actionItems: seq<Row<ActionItem>>)

  /** `getStory`: nothing without an id; throws for a missing or foreign story. It agrees with the
      `getStory` of convex/stories.ts in every outcome except that it leaves the jokes out. */
  function GetStory(t: Tables, caller: string, id: Option<Id>)
    : (r: Result<Option<LegacyStoryDetail>, Failure>)
    ensures var full := Stories.GetStory(t, caller, id);
      && (r.Err? <==> full.Err?)
      && (r.Err? ==> r.error == full.error)
      && (r.Ok? ==> (r.value.None? <==> full.value.None?))
      && (r.Ok? && r.value.Some? ==>
            && r.value.value.id == full.value.value.id
            && r.value.value.story == full.value.value.story
            && r.value.value.actionItems == full.value.value.actionItems)
  {
    if id.None? then Ok(None)
    else
      var story := Lookup(t.stories, id.value);
      if story.None? || story.value.userId != caller then Err(ConvexError(Stories.NotYourStory))
      else Ok(Some(LegacyStoryDetail(id.value, story.value, ActionItemsOfStory(t.actionItems, id.value))))
  }
}
