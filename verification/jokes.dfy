/**
  The joke handlers of convex/jokes.ts: generating a joke for a story and saving it. (Its
  `removeJoke` is the same code as the one in convex/stories.ts and is `Stories.RemoveJoke`.)

  The joke generator is a function parameter: the model sees only the prompt it is given and the
  text it returns, or `None` where the call throws.
*/
module Jokes {
  import opened Wrappers
  import opened Schema
  import opened Store
  import Stories

  const StoryMissing := "Ooops, this story does not exist."

  /** The joke `saveJoke` inserts: the story owner's, with the given text. */
  function SavedJoke(story: Story, storyId: Id, text: string): Joke {
    Joke(story.userId, storyId, text, None, false)
  }

  /** `saveJoke`: checks that the story exists, is the caller's and has its transcript, in this order;
      then inserts the joke and clears the story's `generatingJoke`. */
  method SaveJoke(db: Database, caller: string, id: Id, newJoke: string) returns (r: Result<(), Failure>)
    requires db.Valid()
    modifies db
    ensures db.Valid()
    ensures var s := Lookup(old(db.stories), id);
      && (s.None? ==> r == Err(ConvexError(StoryMissing)))
      && (s.Some? && s.value.userId != caller ==> r == Err(ConvexError(Stories.NotYourStoryForJoke)))
      && (s.Some? && s.value.userId == caller && s.value.generatingTranscript ==>
            r == Err(ConvexError(Stories.TranscriptPending)))
      && (r.Ok? <==> s.Some? && s.value.userId == caller && !s.value.generatingTranscript)
      && (r.Err? ==> db.Snapshot() == old(db.Snapshot()))
      && (r.Ok? ==>
            && s.Some?
            && db.jokes == old(db.jokes) + [Row(old(db.nextId), SavedJoke(s.value, id, newJoke))]
            && db.stories == Patched(old(db.stories), id, JokeDonePatch)
            && Lookup(db.stories, id) == Some(s.value.(generatingJoke := Some(false)))
            && db.nextId == old(db.nextId) + 1)
    ensures db.actionItems == old(db.actionItems) && db.scheduled == old(db.scheduled)
  {
    var story := Lookup(db.stories, id);
    if story.None? {
      return Err(ConvexError(StoryMissing));
    }
    if story.value.userId != caller {
      return Err(ConvexError(Stories.NotYourStoryForJoke));
    }
    if story.value.generatingTranscript {
      return Err(ConvexError(Stories.TranscriptPending));
    }
    var _ := db.InsertJoke(SavedJoke(story.value, id, newJoke));
    LookupPatched(db.stories, id, JokeDonePatch, id);
    var patched := db.PatchStory(id, JokeDonePatch);
    assert patched.Ok?;
    r := Ok(());
  }

  /** `createJokeFromStory`: reads the story with `getStory` (which throws for a missing or foreign
      story), refuses while its transcript is being generated, asks the generator for a joke on the
      transcription and saves it with `saveJoke`. The generator is `None` where its call throws,
      which aborts the action before anything is written. */
  method CreateJokeFromStory(db: Database, caller: string, id: Id, joker: string -> Option<string>)
    returns (r: Result<(), Failure>)
    requires db.Valid()
    modifies db
    ensures db.Valid()
    ensures var s := Lookup(old(db.stories), id);
      && (s.None? || s.value.userId != caller ==> r == Err(ConvexError(Stories.NotYourStory)))
      && (s.Some? && s.value.userId == caller && s.value.generatingTranscript ==>
            r == Err(ConvexError(Stories.TranscriptPending)))
      && (s.Some? && s.value.userId == caller && !s.value.generatingTranscript ==>
            var text := joker(Stories.JokePrompt(s.value.transcription));
            (r.Ok? <==> text.Some?) && (text.None? ==> r == Err(CallFailed)))
      && (r.Err? ==> db.Snapshot() == old(db.Snapshot()))
      && (r.Ok? ==>
            && s.Some?
            && var text := joker(Stories.JokePrompt(s.value.transcription));
            && text.Some?
            && db.jokes == old(db.jokes) + [Row(old(db.nextId), SavedJoke(s.value, id, text.value))]
            && db.stories == Patched(old(db.stories), id, JokeDonePatch)
            && db.nextId == old(db.nextId) + 1)
    ensures db.actionItems == old(db.actionItems) && db.scheduled == old(db.scheduled)
  {
    var detail := Stories.GetStory(db.Snapshot(), caller, Some(id));
    if detail.Err? {
      return Err(detail.error);
    }
    if detail.value.None? {
      return Err(ConvexError(StoryMissing));
    }
    var story := detail.value.value.story;
    if story.generatingTranscript {
      return Err(ConvexError(Stories.TranscriptPending));
    }
    var storyText := Stories.JokePrompt(story.transcription);
    var joke := joker(storyText);
    if joke.None? {
      return Err(CallFailed);
    }
    r := SaveJoke(db, caller, id, joke.value);
  }

  /** The "does not exist" check of `createJokeFromStory` never fires: for a story id, `getStory`
      either throws or returns a story. */
  lemma StoryMissingIsUnreachable(t: Tables, caller: string, id: Id)
    ensures Stories.GetStory(t, caller, Some(id)) != Ok(None)
  {
  }
}
