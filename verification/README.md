# plot_twist story store, modelled in Dafny

plot_twist records voice stories. A user uploads a recording, and the server keeps a `stories`
record for it. Background actions fill in that record's transcript, title, summary and
embedding, and it collects jokes and action items (`jokes` and `actionItems` records). This
project models the server side of that store, written as Convex handlers:
- the table shapes of `convex/schema.ts`;
- the mutations and queries of `convex/stories.ts`, `convex/jokes.ts` and `convex/joke.ts`;
- the summary, embedding and search handlers of `convex/together.ts`;
- the joke pipeline of `convex/replicate_joke.ts`;
- the search filter of the dashboard page (`app/dashboard/dashboard.tsx`).

How the model is organised:
- **The database.** `Store.Database` is a class that holds the three tables as sequences of rows
  in creation order, the scheduler's queue and the id counter.
- **Its invariant.** `Store.Consistent` says that ids increase and are never reused, and that
  every joke and action item refers to an id that was already handed out (one below the id
  counter) and, while a story with that id exists, has that story's owner. Every mutation keeps it.
- **Handlers.** A handler that changes the database is a method taking the database. A query
  reads a snapshot (`Store.Tables`): a function, or a method where the handler loops. What a handler throws is an `Err` result.
- **Errors.** `db.patch` of a missing document throws, as Convex's `patch` does. A mutation that
  throws writes nothing.
- **Outside calls.** The calls to Mixtral, Llama and the Together embedding model, and the
  vector search engine's ranking, are function parameters. A parameter for a call that can throw
  returns an `Option`, and `None` stands for the throw. Transcription appears only as the
  `Transcribe` task that `createStory` schedules. `ctx.userId` is a `caller` parameter, and the
  storage URL of an upload is a parameter too.

Notes on the code:
- **`createJokeFromStory` never reports "does not exist".** It reads the story through
  `getStory` (convex/jokes.ts:16), which already throws `'Not your story.'` for a missing id. Its
  `!story` check (convex/jokes.ts:17-19) therefore never fires, which
  `Jokes.StoryMissingIsUnreachable` proves.
- **`saveSummary`'s early return cannot be reached.** Its first `db.patch` (convex/together.ts:102-106)
  throws for a missing story. The `if (!story)` return after it (convex/together.ts:110-113) is
  therefore unreachable, and a missing story means nothing is written.
- **The replicate `saveJoke` clears the wrong flag, as written.** It clears
  `generatingActionItems`, not `generatingJoke` (convex/replicate_joke.ts:68-70). No handler in
  these files ever sets `generatingJoke` to true, so this changes nothing visible.
- **Only a literal `'/n'` is replaced.** The text handed to the embedder gets the two characters
  `'/n'` replaced, not a newline, and only the first occurrence
  (convex/together.ts:139, 167).
- **No recovery paths.** The handlers have no retries, no rejection of a re-trigger while
  generation runs, no title fallback other than "Title" and no transcript-failure path, so neither
  does the model.

## Model

| member | source | states |
|---|---|---|
| Schema.StoryRoundTrip | convex/schema.ts:5-24 | a story record stored as a document conforms to the `stories` validators (required fields present, optional ones absent when unset) and reads back as the same record |
| Schema.StoryDocumentsAreEncodings | convex/schema.ts:5-24 | every document the `stories` validators accept is the encoding of the record read from it: no other shape can be stored |
| Schema.ActionItemRoundTrip | convex/schema.ts:33-40 | an action item always has `userId`, `storyId` and `task`; encoding then reading gives the record back |
| Schema.ActionItemDocumentsAreEncodings | convex/schema.ts:33-40 | every conforming `actionItems` document is an encoded action item |
| Schema.JokeRoundTrip | convex/schema.ts:42-51 | a joke always has `userId`, `storyId`, `joke` and `generatingJoke`, its embedding optional; encoding then reading gives the record back |
| Schema.JokeDocumentsAreEncodings | convex/schema.ts:42-51 | every conforming `jokes` document is an encoded joke |
| Schema.ImageRoundTrip | convex/schema.ts:53-66 | an image has optional description, file id and URL and the two required booleans; encoding then reading gives the record back |
| Schema.ImageDocumentsAreEncodings | convex/schema.ts:53-66 | every conforming `image` document is an encoded image |
| Schema.ByEmbeddingIsDeclared | convex/schema.ts:26-30 | the `by_embedding` index (768 dimensions) indexes the optional number array `embedding` and filters only on `userId`, a required string |
| Store.Apply | convex/together.ts:102-106 | a `db.patch` overwrites exactly the fields it names and keeps every other field of the story, its owner included |
| Store.JokesOfStory | convex/schema.ts:50 | the `by_storyId` query returns exactly the jokes of the story, in creation order |
| Store.ActionItemsOfStory | convex/schema.ts:39 | the `by_storyId` query returns exactly the story's action items, in creation order |
| Store.ActionItemsOfUser | convex/schema.ts:40 | the `by_userId` query returns exactly the user's action items, in creation order |
| Store.StoriesOfUser | convex/schema.ts:25 | the `by_userId` query returns exactly the user's stories, in creation order |
| Store.Database.PatchStory | convex/together.ts:186-188 | a patch of a missing story fails with nothing written; otherwise only that story is patched |
| Stories.NewStoryDocument | convex/stories.ts:42-49 | the inserted story document holds exactly `userId`, `audioFileId`, `audioFileUrl` and the three generation flags set to true, and conforms to the schema |
| Stories.CreateStory | convex/stories.ts:34-58 | exactly one story is appended, owned by the caller with all flags set; exactly one transcription task carrying its id and file URL is scheduled; its id is returned |
| Stories.CreatedStoryIsEmpty | convex/stories.ts:42-56 | right after `createStory`, `getStory` of the returned id finds that story with no action items and no jokes |
| Stories.JokePrompt | convex/stories.ts:29 | the prompt is the transcription when it is present and not empty, and "error" otherwise; it is never empty |
| Stories.CreateJoke | convex/stories.ts:12-32 | a missing or foreign story throws the owner error; a pending transcript throws; it succeeds exactly when the caller's story has its transcript, and then one joke task with the story id and prompt is scheduled and no table changes |
| Stories.GetStory | convex/stories.ts:60-88 | no id gives null; a missing or foreign story throws; otherwise the story with exactly the action items and jokes whose `storyId` is it, in creation order |
| Stories.WithTitlesOfLiveItems | convex/stories.ts:100-111 | the loop's result is the items whose story still exists, one for one and in order, each with its story's title |
| Stories.GetActionItems | convex/stories.ts:90-113 | the loop returns the titled list of the caller's action items, in creation order |
| Stories.GetStories | convex/stories.ts:115-141 | the caller's stories in creation order, every one of them and no other, each with `count` the number of jokes whose `storyId` is that story |
| Stories.JokeCountIsNumberOfJokes | convex/stories.ts:124-137 | the count equals the number of distinct joke records of the story |
| Stories.JokeCountForStory | convex/stories.ts:192-209 | throws exactly when some joke of the story has another owner; otherwise returns the number of the story's jokes (0 when there are none) |
| Stories.OwnStoryJokesAreOwn | convex/stories.ts:198-207 | for a story of the caller the count never throws, and agrees with the `count` of `getStories` |
| Stories.RemoveJoke | convex/stories.ts:143-157 | a missing joke: nothing changes; another user's joke: throws, nothing changes; otherwise exactly that joke is deleted (the `removeJoke` of convex/jokes.ts:70-84 is the same code) |
| Stories.RemoveActionItem | convex/stories.ts:159-173 | a missing item: nothing changes; another user's item: throws, nothing changes; otherwise exactly that item is deleted |
| Stories.RemoveStory | convex/stories.ts:175-190 | a missing story: nothing changes; another user's story: throws, nothing changes; otherwise exactly that story is deleted and no joke or action item is |
| Stories.RemovedStoryLeavesChildren | convex/stories.ts:186-187 | after the delete the story is gone and `getStory` of it throws; its jokes and action items stay, each now referring to a missing story |
| Jokes.SaveJoke | convex/jokes.ts:35-68 | checks missing story, then owner, then pending transcript, each throwing with nothing written; it succeeds exactly when all three checks pass, and then inserts one joke (story owner, story id, text, not generating) and sets only the story's `generatingJoke` to false |
| Jokes.CreateJokeFromStory | convex/jokes.ts:10-33 | a missing or foreign story throws `getStory`'s error and a pending transcript throws, before any joke is asked for; otherwise the generator is asked for a joke on the prompt (transcription or "error"): when it throws the action fails with nothing written, and otherwise it succeeds and that joke is saved |
| Jokes.StoryMissingIsUnreachable | convex/jokes.ts:16-19 | `getStory` of a story id never returns null, so the "does not exist" check cannot fire |
| Together.ReplaceFirst | convex/together.ts:139 | a text without the pattern is unchanged; otherwise exactly its first occurrence is replaced |
| Together.OnlyFirstSlashNIsReplaced | convex/together.ts:167 | with two `'/n'`, only the first becomes a space |
| Together.NewlineIsKept | convex/together.ts:167 | a text without slashes, newlines included, is embedded as it is |
| Together.EmbeddingInputLength | convex/together.ts:139 | the embedded text is as long as the input, or one character shorter |
| Together.SaveSummary | convex/together.ts:93-126 | a missing story throws with nothing written; otherwise the database becomes `Summarized`: both patches applied and one action item per task appended |
| Together.InsertActionItems | convex/together.ts:114-120 | the loop appends one action item per task, in order, with this `storyId`, the story's `userId` and consecutive ids |
| Together.SummarizedStory | convex/together.ts:102-124 | the story gets the summary and title, `generatingTitle` and `generatingActionItems` false, every other field kept; no other story changes |
| Together.SummarizedActionItems | convex/together.ts:114-120 | the story's action items are its earlier ones followed by one per task in task order; other stories' items are unchanged |
| Together.Chat | convex/together.ts:41-80 | a successful extraction commits its title, summary and action items; a failed one commits "Summary failed to generate", "Title" and no items; a missing story throws with nothing written |
| Together.GetTranscript | convex/together.ts:82-91 | a returned transcription is that of a stored story with that id |
| Together.TranscriptOfStory | convex/together.ts:88-89 | the transcription of the story with the id, and nothing for a missing story (with `TranscriptOfMissingStory`) |
| Together.SaveEmbedding | convex/together.ts:179-190 | a missing story throws with nothing written; otherwise only the story's `embedding` is overwritten |
| Together.Embed | convex/together.ts:160-177 | a throwing embeddings call or a missing story fails with nothing written; otherwise exactly the embedding of the transcript with its first `'/n'` replaced is saved |
| Together.EmbeddedStoryIsSearchable | convex/together.ts:186-188 | a story whose saved embedding has 768 entries is in the index and passes its owner's filter, so its owner's search may return it |
| Together.Hits | convex/together.ts:145-149 | the search keeps exactly the ranked hits that are the caller's indexed stories, in ranking order |
| Together.SimilarStories | convex/together.ts:133-158 | the results are exactly the first min(16, n) of the n ranked hits on the caller's indexed stories, in ranking order; a throwing embeddings call fails the action, and a query vector of the wrong length is refused |
| Together.SimilarStoriesByScore | convex/together.ts:153-156 | when the engine ranks best first, the results' scores do not increase |
| ReplicateJoke.ConcatAppend | convex/replicate_joke.ts:39 | joining two runs of pieces joins each and puts them together |
| ReplicateJoke.ConcatHasPiece | convex/replicate_joke.ts:39 | each piece appears in the joke in its place, after the pieces before it |
| ReplicateJoke.ConcatLength | convex/replicate_joke.ts:39 | the joke has as many characters as the pieces together |
| ReplicateJoke.SaveJoke | convex/replicate_joke.ts:47-73 | a missing story: nothing written; otherwise one joke with the story's owner, id and text, not generating, is inserted and the story's `generatingActionItems` is cleared |
| ReplicateJoke.SavedJokeStory | convex/replicate_joke.ts:68-70 | the patch clears only `generatingActionItems`; `generatingJoke` and every other field and story stay |
| ReplicateJoke.Chat | convex/replicate_joke.ts:17-45 | it fails exactly when `replicate.run` throws, with nothing written; otherwise the saved joke is the model's output pieces joined in order |
| LegacyJoke.CreateJoke | convex/joke.ts:12-36 | inserts a story (not a joke) with all flags set, schedules one transcription task and returns the story's id |
| LegacyJoke.GetStory | convex/joke.ts:38-60 | null without an id; throws exactly when the `getStory` of stories.ts throws, with the same error; otherwise the same story and action items, without jokes |
| Dashboard.ScoreMap | app/dashboard/dashboard.tsx:47-50 | the map's keys are exactly the ids among the hits |
| Dashboard.ScoreMapLastWins | app/dashboard/dashboard.tsx:47-50 | an id that occurs several times maps to the score of its last occurrence |
| Dashboard.BuildScoreMap | app/dashboard/dashboard.tsx:47-50 | the `scoreMap.set` loop builds `ScoreMap` of the hits |
| Dashboard.Relevant | app/dashboard/dashboard.tsx:51-53 | exactly the stories whose mapped score is strictly above 0.5, in their order (a subsequence of all stories) |
| Dashboard.RelevantByLastScore | app/dashboard/dashboard.tsx:47-53 | a story is kept exactly when the last score of its id in the hits is above 0.5 |
| Dashboard.MissingFromHitsIsLeftOut | app/dashboard/dashboard.tsx:51-53 | a story absent from the hits counts as score 0 and is left out |
| Dashboard.DashboardPage.FinalStories | app/dashboard/dashboard.tsx:58 | the search's list when there is one, otherwise all stories |
| Dashboard.DashboardPage.HandleSearch | app/dashboard/dashboard.tsx:40-56 | an empty query clears the search so all stories are shown; when the search call rejects, the shown stories stay as they were; otherwise the relevant stories of the hits for the query are kept, a subsequence of all stories |

## Left out

- Argument validation of the `v.id(table)` argument validators is not modelled: ids are natural numbers, and an id of another table is a missing record.
- Authentication is not modelled: `ctx.userId` is the `caller` parameter, and the actions pass it on to the queries and mutations they run.
- The language models and the embedding model are not modelled: the Mixtral/Instructor, Llama, `replicate.run` and Together embedding calls are function parameters, and `None` stands for a call that throws. A throw in `createJokeFromStory`, the replicate `chat`, `embed` or `similarstories` fails the action before any write; a thrown extraction in `chat` of convex/together.ts is caught and saves the fallback.
- The Whisper transcription action is not part of this model: only the `Transcribe` task that schedules it is.
- The vector search engine is not modelled: its ranking is a function parameter. The model keeps the index membership (an embedding of 768 entries), the owner filter and the limit of 16.
- Together.SimilarStories: does not state that scores lie in [0, 1], because the engine computes them and the model does not.
- Floating point is not modelled: embeddings and scores are `real`, used only for lengths and the 0.5 comparison.
- The scheduler is a queue of task records: the scheduled functions do not run, and concurrency between actions is not modelled.
- Storage is not modelled: `generateUploadUrl` and `ctx.storage.getUrl` are left out, and the file URL is a parameter of `createStory` and `createJoke`.
- Logging (`console.error`, `console.log`) is left out.
- The UI beyond the search filter is left out: the JSX of app/dashboard/dashboard.tsx, the recording pages and the layout.
- `api.stories.findSimilarStories`, which the dashboard calls, is not defined in these files: the dashboard's search is a function parameter, `None` where the call rejects.
- The `image` table is modelled as a record shape only, because no modelled handler reads or writes it.
- Convex's transaction machinery is not modelled: a mutation runs alone, and one that throws writes nothing.
