/**
  The joke pipeline of convex/replicate_joke.ts: the `chat` action asks the language model for a
  joke on the prompt, joins the streamed pieces of its answer and saves them with `saveJoke`.

  The model is a function parameter from the prompt to the pieces of the answer, or to `None`
  where `replicate.run` throws.
*/
module ReplicateJoke {
  import opened Wrappers
  import opened Schema
  import opened Store
  import opened Jokes

  /** `pieces.join("")`. */
  function Concat(pieces: seq<string>): string {
    if pieces == [] then "" else pieces[0] + Concat(pieces[1..])
  }

  /** Joining two runs of pieces is joining each and putting the results together. */
  lemma {:induction false} ConcatAppend(xs: seq<string>, ys: seq<string>)
    ensures Concat(xs + ys) == Concat(xs) + Concat(ys)
  {
    if xs == [] {
      assert xs + ys == ys;
    } else {
      assert (xs + ys)[0] == xs[0];
      assert (xs + ys)[1..] == xs[1..] + ys;
      ConcatAppend(xs[1..], ys);
    }
  }

  /** Joining keeps every character: the length is the sum of the pieces' lengths. */
  function TotalLength(pieces: seq<string>): nat {
    if pieces == [] then 0 else |pieces[0]| + TotalLength(pieces[1..])
  }

  lemma {:induction false} ConcatLength(pieces: seq<string>)
    ensures |Concat(pieces)| == TotalLength(pieces)
  {
    if pieces != [] {
      ConcatLength(pieces[1..]);
    }
  }

  /** Each piece appears in the joined text, in its place: after the pieces before it. */
  lemma {:induction false} ConcatHasPiece(pieces: seq<string>, i: nat)
    requires i < |pieces|
    ensures Concat(pieces) == Concat(pieces[..i]) + pieces[i] + Concat(pieces[i + 1..])
  {
    assert pieces == pieces[..i] + ([pieces[i]] + pieces[i + 1..]);
    ConcatAppend(pieces[..i], [pieces[i]] + pieces[i + 1..]);
    assert ([pieces[i]] + pieces[i + 1..])[1..] == pieces[i + 1..];
  }

  /** `saveJoke`: for a missing story it logs and writes nothing; otherwise it inserts the joke and
      clears the story's `generatingActionItems` (not its `generatingJoke`). */
  method SaveJoke(db: Database, storyId: Id, joke: string)
    requires db.Valid()
    modifies db
    ensures db.Valid()
    ensures var s := Lookup(old(db.stories), storyId);
      && (s.None? ==> db.Snapshot() == old(db.Snapshot()))
      && (s.Some? ==>
            && db.jokes == old(db.jokes) + [Row(old(db.nextId), SavedJoke(s.value, storyId, joke))]
            && db.stories == Patched(old(db.stories), storyId, ActionItemsDonePatch)
            && db.nextId == old(db.nextId) + 1)
    ensures db.actionItems == old(db.actionItems) && db.scheduled == old(db.scheduled)
  {
    var story := Lookup(db.stories, storyId);
    if story.None? {
      return;
    }
    StoryIdBelowNext(db.Snapshot(), storyId);
    var _ := db.InsertJoke(SavedJoke(story.value, storyId, joke));
    var patched := db.PatchStory(storyId, ActionItemsDonePatch);
    assert patched.Ok?;
  }

  /** The story `saveJoke` leaves: its action items are no longer pending and every other field,
      `generatingJoke` included, is as it was; other stories are unchanged. */
  lemma SavedJokeStory(stories: seq<Row<Story>>, storyId: Id, k: Id)
    requires Lookup(stories, storyId).Some?
    ensures var s := Lookup(stories, storyId).value;
      Lookup(Patched(stories, storyId, ActionItemsDonePatch), k) ==
        if k == storyId then Some(s.(generatingActionItems := false)) else Lookup(stories, k)
    ensures Lookup(Patched(stories, storyId, ActionItemsDonePatch), storyId).value.generatingJoke ==
      Lookup(stories, storyId).value.generatingJoke
  {
    LookupPatched(stories, storyId, ActionItemsDonePatch, k);
    LookupPatched(stories, storyId, ActionItemsDonePatch, storyId);
  }

  /** `chat`: the joke is the model's answer to the prompt, its pieces joined. When the model call
      throws, the action fails before `saveJoke` runs and nothing is written. */
  method Chat(db: Database, id: Id, prompt: string, llama: string -> Option<seq<string>>)
    returns (r: Result<(), Failure>)
    requires db.Valid()
    modifies db
    ensures db.Valid()
    ensures r.Err? <==> llama(prompt).None?
    ensures r.Err? ==> r.error == CallFailed && db.Snapshot() == old(db.Snapshot())
    ensures r.Ok? ==> var s := Lookup(old(db.stories), id);
      && (s.None? ==> db.Snapshot() == old(db.Snapshot()))
      && (s.Some? ==>
            && db.jokes == old(db.jokes) +
                 [Row(old(db.nextId), SavedJoke(s.value, id, Concat(llama(prompt).value)))]
            && db.stories == Patched(old(db.stories), id, ActionItemsDonePatch)
            && db.nextId == old(db.nextId) + 1)
    ensures db.actionItems == old(db.actionItems) && db.scheduled == old(db.scheduled)
  {
    var output := llama(prompt);
    if output.None? {
      return Err(CallFailed);
    }
    var response := Concat(output.value);
    SaveJoke(db, id, response);
    r := Ok(());
  }
}
