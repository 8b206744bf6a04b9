/**
  The search of the dashboard page (app/dashboard/dashboard.tsx): `handleSearch` asks the search
  action for scored hits, keeps the last score of each id in a map, and keeps the user's stories
  whose score is above the threshold; the page then shows those stories, or all of them when
  there is no search.

  The search action is a function parameter from the query to its hits, or to `None` where the
  action call rejects.
*/
module Dashboard {
  import opened Wrappers
  import opened Schema
  import opened Store
  import opened Stories
  import opened Together

  /** A story is shown when its score is strictly above this. */
  const Threshold: real := 0.5

  /** The map `handleSearch` builds: every id of the hits, with its last score. */
  function ScoreMap(scores: seq<SearchResult>): (m: map<Id, real>)
    ensures forall k :: k in m <==> exists i :: 0 <= i < |scores| && scores[i].id == k
  {
    if scores == [] then map[]
    else
      var n := |scores| - 1;
      var m := ScoreMap(scores[..n]);
      assert forall i :: 0 <= i < n ==> scores[..n][i] == scores[i];
      m[scores[n].id := scores[n].score]
  }

  /** When an id occurs several times, the map holds the score of its last occurrence. */
  lemma {:induction false} ScoreMapLastWins(scores: seq<SearchResult>, i: nat)
    requires i < |scores|
    requires forall j :: i < j < |scores| ==> scores[j].id != scores[i].id
    ensures ScoreMap(scores)[scores[i].id] == scores[i].score
  {
    var n := |scores| - 1;
    if i < n {
      assert forall j :: i < j < n ==> scores[..n][j] == scores[j];
      ScoreMapLastWins(scores[..n], i);
    }
  }

  /** The `scoreMap.set` loop of `handleSearch`. */
  method BuildScoreMap(scores: seq<SearchResult>) returns (m: map<Id, real>)
    ensures m == ScoreMap(scores)
  {
    m := map[];
    for i := 0 to |scores|
      invariant m == ScoreMap(scores[..i])
    {
      assert scores[..i + 1][..i] == scores[..i];
      m := m[scores[i].id := scores[i].score];
    }
    assert scores[..|scores|] == scores;
  }

  /** `scoreMap.get(id) ?? 0`. */
  function ScoreOf(m: map<Id, real>, id: Id): real {
    if id in m then m[id] else 0.0
  }

  /** The stories `handleSearch` keeps: those whose score is above the threshold, in their order. A
      story that is not among the hits has score 0 and is left out. */
  function Relevant(all: seq<StoryWithCount>, m: map<Id, real>): (r: seq<StoryWithCount>)
    ensures forall s :: s in r <==> s in all && s.id in m && m[s.id] > Threshold
    ensures Subsequence(r, all)
  {
    Filter(all, (s: StoryWithCount) => ScoreOf(m, s.id) > Threshold)
  }

  /** The stories kept for a search are exactly those whose last score in the hits is above the
      threshold. */
  lemma RelevantByLastScore(all: seq<StoryWithCount>, scores: seq<SearchResult>, s: StoryWithCount, i: nat)
    requires s in all && i < |scores| && scores[i].id == s.id
    requires forall j :: i < j < |scores| ==> scores[j].id != s.id
    ensures s in Relevant(all, ScoreMap(scores)) <==> scores[i].score > Threshold
  {
    ScoreMapLastWins(scores, i);
  }

  lemma MissingFromHitsIsLeftOut(all: seq<StoryWithCount>, scores: seq<SearchResult>, s: StoryWithCount)
    requires forall j :: 0 <= j < |scores| ==> scores[j].id != s.id
    ensures s !in Relevant(all, ScoreMap(scores))
  {
  }

  /** The state of the dashboard component. */
  class DashboardPage {
    var searchQuery: string
    var relevantStories: Option<seq<StoryWithCount>>

    constructor ()
      ensures searchQuery == "" && relevantStories == None
    {
      searchQuery := "";
      relevantStories := None;
    }

    /** `finalStories`: the search's stories, or all of them when there is no search. */
    function FinalStories(all: seq<StoryWithCount>): (r: seq<StoryWithCount>)
      reads this
      ensures relevantStories.None? ==> r == all
      ensures relevantStories.Some? ==> r == relevantStories.value
    {
      if relevantStories.Some? then relevantStories.value else all
    }

    /** `handleSearch`: an empty query clears the search; otherwise the relevant stories are those
        of the search's hits above the threshold. When the search call rejects, the handler stops
        before `setRelevantStories` and the page keeps what it showed. */
    method HandleSearch(all: seq<StoryWithCount>, search: string -> Option<seq<SearchResult>>)
      modifies this
      ensures searchQuery == old(searchQuery)
      ensures old(searchQuery) == "" ==> relevantStories == None && FinalStories(all) == all
      ensures old(searchQuery) != "" && search(old(searchQuery)).None? ==>
        relevantStories == old(relevantStories)
      ensures old(searchQuery) != "" && search(old(searchQuery)).Some? ==>
        && relevantStories == Some(Relevant(all, ScoreMap(search(old(searchQuery)).value)))
        && Subsequence(FinalStories(all), all)
    {
      if searchQuery == "" {
        relevantStories := None;
      } else {
        var scores := search(searchQuery);
        if scores.None? {
          return;
        }
        var scoreMap := BuildScoreMap(scores.value);
        var filteredResults := Filter(all, (s: StoryWithCount) => ScoreOf(scoreMap, s.id) > Threshold);
        relevantStories := Some(filteredResults);
      }
    }
  }
}
