/** The client's music-library component: the list of track ids in the
    library, the latest search results, and for each result whether it may
    still be added. Backend calls are given by their outcome (`None` when
    the call fails, which the component reports with an alert). State
    updates are applied in order, one after the other. */
module MusicAppComponent {
  import opened Base

  datatype SearchResult = SearchResult(
    id: string, name: string, artists: string, duration: string, uri: string, imageUrl: string)

  /** `{...result, addable}`: a search result with its flag. */
  datatype AddableSearchResult = AddableSearchResult(result: SearchResult, addable: bool)

  /** The results mapped with `addable: !trackIds.includes(result.id)`. */
  function AddableResults(results: seq<SearchResult>, trackIds: seq<string>): (r: seq<AddableSearchResult>)
    ensures |r| == |results|
    ensures forall i :: 0 <= i < |results| ==> r[i].result == results[i]
    ensures forall i :: 0 <= i < |results| ==> (r[i].addable <==> results[i].id !in trackIds)
  {
    seq(|results|, i requires 0 <= i < |results| =>
      AddableSearchResult(results[i], results[i].id !in trackIds))
  }

  /** `trackIds.filter(id => id != trackId)`. */
  function WithoutTrack(trackIds: seq<string>, trackId: string): (r: seq<string>)
    ensures trackId !in r
    ensures forall x :: x != trackId ==> multiset(r)[x] == multiset(trackIds)[x]
    ensures |r| <= |trackIds|
    decreases |trackIds|
  {
    if trackIds == [] then []
    else
      assert trackIds == [trackIds[0]] + trackIds[1..];
      (if trackIds[0] != trackId then [trackIds[0]] else []) + WithoutTrack(trackIds[1..], trackId)
  }

  /** Filtering keeps the others in their original order: it distributes
      over concatenation. */
  lemma {:induction false} WithoutTrackAppend(a: seq<string>, b: seq<string>, trackId: string)
    ensures WithoutTrack(a + b, trackId) == WithoutTrack(a, trackId) + WithoutTrack(b, trackId)
    decreases |a|
  {
    if a == [] {
      assert a + b == b;
    } else {
      assert (a + b)[0] == a[0] && (a + b)[1..] == a[1..] + b;
      WithoutTrackAppend(a[1..], b, trackId);
    }
  }

  /** Filtering out an id that is not there changes nothing. */
  lemma {:induction false} WithoutTrackAbsent(trackIds: seq<string>, trackId: string)
    requires trackId !in trackIds
    ensures WithoutTrack(trackIds, trackId) == trackIds
    decreases |trackIds|
  {
    if trackIds != [] {
      WithoutTrackAbsent(trackIds[1..], trackId);
      assert [trackIds[0]] + trackIds[1..] == trackIds;
    }
  }

  /** `disabled={!searchResult.addable}`. */
  function AddButtonDisabled(entry: AddableSearchResult): (r: bool)
    ensures r <==> !entry.addable
  {
    !entry.addable
  }

  /** A result's add button is disabled exactly when its track is already in
      the library, once the flags have been computed. */
  lemma DisabledIffInLibrary(results: seq<SearchResult>, trackIds: seq<string>, i: nat)
    requires i < |results|
    ensures AddButtonDisabled(AddableResults(results, trackIds)[i]) <==> results[i].id in trackIds
  {
  }

  /** After adding `x` and recomputing, no result with id `x` can be added
      (its button is disabled); the other results keep their flag unless
      their id was already in the library. After deleting `x`, every result
      with id `x` can be added again. */
  lemma AddThenDeleteFlags(results: seq<SearchResult>, trackIds: seq<string>, x: string)
    ensures var added := AddableResults(results, trackIds + [x]);
      forall i :: 0 <= i < |results| ==>
        (AddButtonDisabled(added[i]) <==> results[i].id == x || results[i].id in trackIds)
    ensures var deleted := AddableResults(results, WithoutTrack(trackIds, x));
      forall i :: 0 <= i < |results| && results[i].id == x ==> !AddButtonDisabled(deleted[i])
    ensures var deleted := AddableResults(results, WithoutTrack(trackIds, x));
      forall i :: 0 <= i < |results| && results[i].id != x ==>
        (deleted[i].addable <==> results[i].id !in trackIds)
  {
    var without := WithoutTrack(trackIds, x);
    forall i | 0 <= i < |results| && results[i].id != x
      ensures results[i].id in without <==> results[i].id in trackIds
    {
      assert multiset(without)[results[i].id] == multiset(trackIds)[results[i].id];
    }
  }

  /** The component's state. */
  class MusicApp {
    var searchResults: seq<SearchResult>
    var addableSearchResults: seq<AddableSearchResult>
    var trackIds: seq<string>
    var searchTerm: string
    var loadingSongs: bool
    var loadingSearchResults: bool

    /** The flags shown agree with the library and the results. */
    ghost predicate Consistent()
      reads this
    {
      addableSearchResults == AddableResults(searchResults, trackIds)
    }

    constructor ()
      ensures searchResults == [] && addableSearchResults == [] && trackIds == []
      ensures searchTerm == "" && loadingSongs && !loadingSearchResults
      ensures Consistent()
    {
      searchResults := [];
      addableSearchResults := [];
      trackIds := [];
      searchTerm := "";
      loadingSongs := true;
      loadingSearchResults := false;
    }

    /** `setAddableSearchResultsState`. */
    method SetAddableSearchResultsState()
      modifies this
      ensures addableSearchResults == AddableResults(searchResults, trackIds)
      ensures !loadingSearchResults
      ensures Consistent()
      ensures searchResults == old(searchResults) && trackIds == old(trackIds)
      ensures searchTerm == old(searchTerm) && loadingSongs == old(loadingSongs)
    {
      addableSearchResults := AddableResults(searchResults, trackIds);
      loadingSearchResults := false;
    }

    /** `handleSearchInputChange`. */
    method HandleSearchInputChange(value: string)
      modifies this
      ensures searchTerm == value
      ensures searchResults == old(searchResults) && addableSearchResults == old(addableSearchResults)
      ensures trackIds == old(trackIds) && loadingSongs == old(loadingSongs)
      ensures loadingSearchResults == old(loadingSearchResults)
    {
      searchTerm := value;
    }

    /** `onSubmitSearch`: the spinner is switched on; on success the results
        are stored and their flags recomputed, on failure the spinner stays
        on and nothing else changes. It runs in any state, including one
        whose flags are stale after `componentDidMount`; success makes the
        flags consistent again. */
    method OnSubmitSearch(response: Option<seq<SearchResult>>)
      modifies this
      ensures response.Some? ==> Consistent()
      ensures response.None? && old(Consistent()) ==> Consistent()
      ensures trackIds == old(trackIds) && searchTerm == old(searchTerm) && loadingSongs == old(loadingSongs)
      ensures response.Some? ==> searchResults == response.value && !loadingSearchResults
      ensures response.None? ==>
        searchResults == old(searchResults) && addableSearchResults == old(addableSearchResults) && loadingSearchResults
    {
      loadingSearchResults := true;
      if response.Some? {
        searchResults := response.value;
        SetAddableSearchResultsState();
      }
    }

    /** `onSongDelete`: on success every occurrence of the id leaves the
        library and the flags are recomputed; on failure nothing changes. */
    method OnSongDelete(trackId: string, deleted: bool)
      modifies this
      ensures deleted ==> Consistent()
      ensures !deleted && old(Consistent()) ==> Consistent()
      ensures searchResults == old(searchResults) && searchTerm == old(searchTerm) && loadingSongs == old(loadingSongs)
      ensures deleted ==> trackIds == WithoutTrack(old(trackIds), trackId) && !loadingSearchResults
      ensures !deleted ==> trackIds == old(trackIds)
      ensures !deleted ==> addableSearchResults == old(addableSearchResults)
      ensures !deleted ==> loadingSearchResults == old(loadingSearchResults)
    {
      if deleted {
        trackIds := WithoutTrack(trackIds, trackId);
        SetAddableSearchResultsState();
      }
    }

    /** `onSongAdd`: on success the id the backend returns is appended (even
        if already present) and the flags are recomputed; on failure nothing
        changes. */
    method OnSongAdd(trackId: string, added: Option<string>)
      modifies this
      ensures added.Some? ==> Consistent()
      ensures added.None? && old(Consistent()) ==> Consistent()
      ensures searchResults == old(searchResults) && searchTerm == old(searchTerm) && loadingSongs == old(loadingSongs)
      ensures added.Some? ==> trackIds == old(trackIds) + [added.value] && !loadingSearchResults
      ensures added.None? ==> trackIds == old(trackIds)
      ensures added.None? ==> addableSearchResults == old(addableSearchResults)
      ensures added.None? ==> loadingSearchResults == old(loadingSearchResults)
    {
      if added.Some? {
        trackIds := trackIds + [added.value];
        SetAddableSearchResultsState();
      }
    }

    /** `componentDidMount`: the library is loaded without recomputing the
        flags, so they stay consistent only if no search results are shown
        yet. */
    method ComponentDidMount(songs: Option<seq<string>>)
      modifies this
      ensures searchResults == old(searchResults) && addableSearchResults == old(addableSearchResults)
      ensures searchTerm == old(searchTerm) && loadingSearchResults == old(loadingSearchResults)
      ensures songs.Some? ==> trackIds == songs.value && !loadingSongs
      ensures songs.None? ==> trackIds == old(trackIds) && loadingSongs == old(loadingSongs)
      ensures old(Consistent()) && old(searchResults) == [] ==> Consistent()
    {
      if songs.Some? {
        trackIds := songs.value;
        loadingSongs := false;
      }
    }
  }

  /** A search that completes before the library has loaded leaves stale
      flags: after `componentDidMount` loads a library already holding the
      found track, its add button stays enabled, and adding it appends the
      id a second time. */
  method StaleFlagsAllowDuplicate() returns (buttonEnabled: bool, trackIds: seq<string>)
    ensures buttonEnabled
    ensures trackIds == ["a", "a"]
  {
    var app := new MusicApp();
    var found := SearchResult("a", "Song", "Artist", "180000", "spotify:track:a", "");
    app.OnSubmitSearch(Some([found]));
    app.ComponentDidMount(Some(["a"]));
    buttonEnabled := !AddButtonDisabled(app.addableSearchResults[0]);
    app.OnSongAdd("a", Some("a"));
    trackIds := app.trackIds;
  }
}
