/** The non-streaming search hook that appends further result pages on demand. */
module LoadMore {
  import opened Wrappers
  import opened Keywords

  /** `canLoadMore: loadMoreCount < 5`. */
  const MaxLoadMore := 5

  /** What `searchApi.search` does for one load-more request: answers, or throws. */
  datatype Fetch = Answered(result: SearchResponse) | Threw

  const LoadMoreFailedMessage: string := "Failed to load more results"

  /** What `loadMore` did: returned at the guard, finished, or showed an error toast and rethrew the request's error. */
  datatype LoadOutcome = Skipped | Loaded | Rethrown(toast: string)

  class SearchWithLoadMore {
    var allResults: seq<KeywordSuggestion>
    var isLoadingMore: bool
    var loadMoreCount: nat

    constructor ()
      ensures allResults == [] && !isLoadingMore && loadMoreCount == 0
    {
      allResults := [];
      isLoadingMore := false;
      loadMoreCount := 0;
    }

    /** `canLoadMore`; `loadMore` does not consult it. */
    predicate CanLoadMore()
      reads this
      ensures loadMoreCount == 0 ==> CanLoadMore()
      ensures loadMoreCount >= MaxLoadMore ==> !CanLoadMore()
    {
      loadMoreCount < MaxLoadMore
    }

    /** The effect on `[projectId, query, searchMode]`. */
    method ParametersChanged()
      modifies this
      ensures allResults == [] && loadMoreCount == 0 && !isLoadingMore
      ensures CanLoadMore()
    {
      allResults := [];
      loadMoreCount := 0;
      isLoadingMore := false;
    }

    /** The effect on `initialData`: present suggestions replace the results. */
    method InitialDataArrived(initialData: Option<SearchResponse>)
      modifies this
      ensures allResults == if initialData.Some? then initialData.value.suggestions else old(allResults)
      ensures loadMoreCount == old(loadMoreCount) && isLoadingMore == old(isLoadingMore)
    {
      if initialData.Some? {
        allResults := initialData.value.suggestions;
      }
    }

    method LoadMore(projectId: string, query: string, fetch: Fetch) returns (outcome: LoadOutcome)
      modifies this
      ensures projectId == [] || query == [] || old(isLoadingMore) ==>
        outcome == Skipped && allResults == old(allResults) && loadMoreCount == old(loadMoreCount) && isLoadingMore == old(isLoadingMore)
      ensures projectId != [] && query != [] && !old(isLoadingMore) ==> !isLoadingMore && match fetch
        case Answered(result) =>
          outcome == Loaded && allResults == old(allResults) + result.suggestions && loadMoreCount == old(loadMoreCount) + 1
        case Threw =>
          outcome == Rethrown(LoadMoreFailedMessage) && allResults == old(allResults) && loadMoreCount == old(loadMoreCount)
    {
      if projectId == [] || query == [] || isLoadingMore {
        return Skipped;
      }
      isLoadingMore := true;
      match fetch {
        case Answered(result) =>
          allResults := allResults + result.suggestions;
          loadMoreCount := loadMoreCount + 1;
          outcome := Loaded;
        case Threw =>
          outcome := Rethrown(LoadMoreFailedMessage);
      }
      isLoadingMore := false;
    }
  }
}
