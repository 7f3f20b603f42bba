/** What the feed's transitions promise once they are chained: the tab flags,
    infinite scrolling as a sequence of load-more rounds, every reachable state
    naming a tab, the list only growing between resets, and the screen's
    scenarios with overlapping requests. */
module PostFeedProperties {
  import opened Wrappers
  import opened PostFeed

  /** Every tab sends 0/1 flags, no tab sets both, and the three tabs send three
      different flag pairs. */
  lemma TabFlagsExclusive(i: nat, j: nat)
    requires i < |Tabs| && j < |Tabs|
    ensures Tabs[i].getMyPosts <= 1 && Tabs[i].getMyFriendPosts <= 1
    ensures !(Tabs[i].getMyPosts == 1 && Tabs[i].getMyFriendPosts == 1)
    ensures i != j ==> (Tabs[i].getMyPosts, Tabs[i].getMyFriendPosts) != (Tabs[j].getMyPosts, Tabs[j].getMyFriendPosts)
  {
  }

  /** One scroll to the end of the list with nothing loading, answered by
      `newPosts`. */
  function LoadMoreRound(s: FeedState, newPosts: seq<PostModel>): (t: FeedState)
    requires Valid(s)
    ensures Valid(t) && SameSettings(s, t)
    ensures !s.hasMore ==> t == s
    ensures s.hasMore ==> t == AfterFetch(s, s.page + 1, Received(newPosts))
  {
    match LoadMoreRequest(s, false)
    case None => s
    case Some(req) => AfterFetch(s, req.page, Received(newPosts))
  }

  /** Scrolling through `pages`, one round per page. */
  function Paginate(s: FeedState, pages: seq<seq<PostModel>>): (t: FeedState)
    requires Valid(s)
    ensures Valid(t) && SameSettings(s, t)
    decreases |pages|
  {
    if pages == [] then s else Paginate(LoadMoreRound(s, pages[0]), pages[1..])
  }

  function Concat(pages: seq<seq<PostModel>>): seq<PostModel>
    decreases |pages|
  {
    if pages == [] then [] else pages[0] + Concat(pages[1..])
  }

  /** While the server keeps answering with full pages, each round requests the
      next page and appends it: the list is the old list followed by every page
      in order, `page` has advanced once per round, and more remain exactly when
      the last page was full. */
  lemma {:induction false} PaginateAppends(s: FeedState, pages: seq<seq<PostModel>>)
    requires Valid(s) && s.hasMore
    requires forall k :: 0 <= k < |pages| - 1 ==> |pages[k]| == PageSize
    ensures Paginate(s, pages).posts == s.posts + Concat(pages)
    ensures Paginate(s, pages).page == s.page + |pages|
    ensures Paginate(s, pages).hasMore <==> pages == [] || |pages[|pages| - 1]| == PageSize
    decreases |pages|
  {
    if pages != [] {
      var s1 := LoadMoreRound(s, pages[0]);
      assert s1.posts == s.posts + pages[0];
      if |pages| == 1 {
        assert pages[1..] == [];
        assert Concat(pages) == pages[0] + Concat([]);
      } else {
        assert |pages[0]| == PageSize;
        var rest := pages[1..];
        assert forall k :: 0 <= k < |rest| - 1 ==> |rest[k]| == PageSize by {
          forall k | 0 <= k < |rest| - 1 ensures |rest[k]| == PageSize {
            assert rest[k] == pages[k + 1];
          }
        }
        PaginateAppends(s1, rest);
        assert rest[|rest| - 1] == pages[|pages| - 1];
        assert s.posts + Concat(pages) == s.posts + pages[0] + Concat(rest);
      }
    }
  }

  /** Once a short page has come back, scrolling never requests anything again:
      the state no longer changes. */
  lemma {:induction false} ExhaustedFeedIsFrozen(s: FeedState, pages: seq<seq<PostModel>>)
    requires Valid(s) && !s.hasMore
    ensures Paginate(s, pages) == s
    decreases |pages|
  {
    if pages != [] {
      ExhaustedFeedIsFrozen(LoadMoreRound(s, pages[0]), pages[1..]);
    }
  }

  /** Scrolling through `a` and then `b` is scrolling through `a + b`. */
  lemma {:induction false} PaginateSplit(s: FeedState, a: seq<seq<PostModel>>, b: seq<seq<PostModel>>)
    requires Valid(s)
    ensures Paginate(s, a + b) == Paginate(Paginate(s, a), b)
    decreases |a|
  {
    if a == [] {
      assert a + b == b;
    } else {
      assert (a + b)[0] == a[0];
      assert (a + b)[1..] == a[1..] + b;
      PaginateSplit(LoadMoreRound(s, a[0]), a[1..], b);
    }
  }

  /** A page shorter than the page size ends the scrolling: whatever the server
      would answer afterwards is never asked for. */
  lemma ShortPageEndsPagination(s: FeedState, pages: seq<seq<PostModel>>, later: seq<seq<PostModel>>)
    requires Valid(s) && s.hasMore
    requires pages != [] && |pages[|pages| - 1]| < PageSize
    requires forall k :: 0 <= k < |pages| - 1 ==> |pages[k]| == PageSize
    ensures Paginate(s, pages + later) == Paginate(s, pages)
  {
    PaginateSplit(s, pages, later);
    PaginateAppends(s, pages);
    ExhaustedFeedIsFrozen(Paginate(s, pages), later);
  }

  /** However the server answers, scrolling never loses or reorders what is
      already shown: the old list stays a prefix. */
  lemma {:induction false} PaginateKeepsPrefix(s: FeedState, pages: seq<seq<PostModel>>)
    requires Valid(s)
    ensures |s.posts| <= |Paginate(s, pages).posts|
    ensures Paginate(s, pages).posts[..|s.posts|] == s.posts
    decreases |pages|
  {
    if pages != [] {
      var s1 := LoadMoreRound(s, pages[0]);
      assert s1.posts[..|s.posts|] == s.posts;
      PaginateKeepsPrefix(s1, pages[1..]);
      var t := Paginate(s1, pages[1..]);
      assert t.posts[..|s.posts|] == t.posts[..|s1.posts|][..|s.posts|];
    }
  }

  /** Everything that can happen to the screen: user gestures, the mount, and
      the settling of a request issued earlier. `loading` is what the fetch hook
      reports when the end of the list is reached. */
  datatype Event =
    | EditQuery(text: string)
    | Mount
    | TabChange(index: nat)
    | Search
    | ClearSearch
    | Refresh
    | LoadMore(loading: bool)
    | FetchSettled(pageNumber: nat, resp: Response)
    | SearchSettled(resp: Response)
    | RefreshSettled(resp: Response)

  /** A tab change names one of the tabs the bar shows. */
  predicate EventValid(e: Event)
  {
    e.TabChange? ==> e.index < |Tabs|
  }

  /** The state after one event. Settling events may come in any order and any
      number of times: nothing checks that a matching request is outstanding. */
  function Step(s: FeedState, e: Event): FeedState
    requires Valid(s) && EventValid(e)
  {
    match e
    case EditQuery(text) => AfterEditQuery(s, text)
    case Mount => AfterMount(s)
    case TabChange(index) => AfterTabChange(s, index)
    case Search => AfterSearchIssued(s)
    case ClearSearch => AfterClearSearch(s)
    case Refresh => AfterRefreshIssued(s)
    case LoadMore(_) => s
    case FetchSettled(pageNumber, resp) => AfterFetch(s, pageNumber, resp)
    case SearchSettled(resp) => AfterSearch(s, resp)
    case RefreshSettled(resp) => AfterRefresh(s, resp)
  }

  /** The state after a run of events; every state on the way names a tab, so
      `tabs[activeTab]` is always defined when a request is built. */
  function Run(s: FeedState, es: seq<Event>): (t: FeedState)
    requires Valid(s)
    requires forall k :: 0 <= k < |es| ==> EventValid(es[k])
    ensures Valid(t)
    decreases |es|
  {
    if es == [] then s else Run(Step(s, es[0]), es[1..])
  }

  /** The events that never replace or clear the list: typing, the mount,
      scroll requests and the completion of a later page. */
  predicate NoReset(e: Event)
  {
    e.EditQuery? || e.Mount? || e.LoadMore? || (e.FetchSettled? && e.pageNumber != 0)
  }

  /** Between resets the list only grows at its end, whatever the order in which
      later pages settle and whether they succeed. */
  lemma {:induction false} AppendOnlyWithoutReset(s: FeedState, es: seq<Event>)
    requires Valid(s)
    requires forall k :: 0 <= k < |es| ==> EventValid(es[k]) && NoReset(es[k])
    ensures |s.posts| <= |Run(s, es).posts|
    ensures Run(s, es).posts[..|s.posts|] == s.posts
    decreases |es|
  {
    if es != [] {
      var s1 := Step(s, es[0]);
      assert s1.posts[..|s.posts|] == s.posts;
      assert forall k :: 0 <= k < |es[1..]| ==> EventValid(es[1..][k]) && NoReset(es[1..][k]) by {
        forall k | 0 <= k < |es[1..]| ensures EventValid(es[1..][k]) && NoReset(es[1..][k]) {
          assert es[1..][k] == es[k + 1];
        }
      }
      AppendOnlyWithoutReset(s1, es[1..]);
      var t := Run(s1, es[1..]);
      assert t.posts[..|s.posts|] == t.posts[..|s1.posts|][..|s.posts|];
    }
  }

  /** The basic scroll: a full page 0, then page 1 is requested; it brings two
      posts, so the list holds six, more are not expected, and scrolling again
      requests nothing. */
  lemma BasicPagination(s: FeedState, first: seq<PostModel>, second: seq<PostModel>)
    requires Valid(s) && |first| == PageSize && |second| == 2
    ensures var s1 := AfterFetch(s, 0, Received(first));
            LoadMoreRequest(s1, false) == Some(ListRequest(None, 1, s.activeTab)) &&
            var s2 := AfterFetch(s1, 1, Received(second));
            |s2.posts| == 6 && s2.posts == first + second && !s2.hasMore && s2.page == 1 &&
            LoadMoreRequest(s2, false) == None
  {
  }

  /** While the fetch hook reports loading, a scroll builds no request. */
  lemma LoadMoreWhileLoadingSendsNothing(s: FeedState)
    requires Valid(s) && s.hasMore
    ensures LoadMoreRequest(s, false).Some?
    ensures LoadMoreRequest(s, true) == None
  {
  }

  /** A refresh whose request fails rewinds `page` to 0 but keeps the list and
      `hasMore`. If more pages were expected, the next scroll asks for page 1
      again and appends it after the list that already holds it. */
  lemma FailedRefreshThenScrollRepeatsPageOne(s: FeedState, again: seq<PostModel>)
    requires Valid(s) && s.hasMore && s.page >= 1
    ensures var t := AfterRefresh(AfterRefreshIssued(s), Failed);
            t.page == 0 && t.posts == s.posts && t.hasMore &&
            LoadMoreRequest(t, false) == Some(ListRequest(None, 1, s.activeTab)) &&
            AfterFetch(t, 1, Received(again)).posts == s.posts + again
  {
  }

  /** A refresh or a cleared search whose request fails leaves an exhausted feed
      exhausted: no scroll asks for anything until a page-0 answer arrives. */
  lemma FailedResetKeepsFeedExhausted(s: FeedState)
    requires Valid(s) && !s.hasMore
    ensures var t := AfterRefresh(AfterRefreshIssued(s), Failed);
            !t.hasMore && LoadMoreRequest(t, false) == None
    ensures var u := AfterFetch(AfterClearSearch(s), 0, Failed);
            !u.hasMore && LoadMoreRequest(u, false) == None
  {
  }

  /** A search replaces the loaded list with its results and rewinds to page 0;
      it expects more results even when fewer than a page came back. */
  lemma SearchReplacesFeed(s: FeedState, results: seq<PostModel>)
    requires Valid(s) && |results| < PageSize
    ensures var t := AfterSearch(AfterSearchIssued(s), Received(results));
            t.posts == results && t.page == 0 && t.hasMore && !t.loadingDialog
  {
  }

  /** Scrolling after a search asks for page 1 without the search text, so the
      unfiltered page is appended to the search results. */
  lemma LoadMoreAfterSearchIsUnfiltered(s: FeedState, results: seq<PostModel>, next: seq<PostModel>)
    requires Valid(s) && s.searchQuery != []
    ensures var t := AfterSearch(AfterSearchIssued(s), Received(results));
            LoadMoreRequest(t, false) == Some(ListRequest(None, 1, s.activeTab)) &&
            AfterFetch(t, 1, Received(next)).posts == results + next &&
            AfterFetch(t, 1, Received(next)).searchQuery == s.searchQuery
  {
  }

  /** Changing tab while page p + 1 of the old tab is loading: the new tab's
      page 0 is requested, and when the old request settles last its posts are
      appended to the new tab's list and `page` jumps to p + 1. */
  lemma StaleLoadMoreAfterTabChangeIsAppended(s: FeedState, index: nat, current: seq<PostModel>, stale: seq<PostModel>)
    requires Valid(s) && s.hasMore && !s.initialMount
    requires index < |Tabs| && index != s.activeTab
    ensures var pending := LoadMoreRequest(s, false);
            var t := AfterTabChange(s, index);
            pending == Some(ListRequest(None, s.page + 1, s.activeTab)) &&
            TabChangeRequest(s, index) == Some(ListRequest(None, 0, index)) &&
            var u := AfterFetch(AfterFetch(t, 0, Received(current)), pending.value.page, Received(stale));
            u.posts == current + stale && u.page == s.page + 1 && u.activeTab == index
  {
  }

  /** The same overlap with the old request settling first: its posts are
      shown under the new tab until the new page 0 replaces them. */
  lemma StaleLoadMoreBeforeNewPageIsReplaced(s: FeedState, index: nat, current: seq<PostModel>, stale: seq<PostModel>)
    requires Valid(s) && s.hasMore && !s.initialMount
    requires index < |Tabs| && index != s.activeTab
    ensures var t := AfterTabChange(s, index);
            var u := AfterFetch(t, s.page + 1, Received(stale));
            u.posts == stale && u.activeTab == index &&
            AfterFetch(u, 0, Received(current)).posts == current &&
            AfterFetch(u, 0, Received(current)).page == 0
  {
  }

  /** Choosing the tab that is already active clears the list and sends no
      request, since the effect keyed on the tab does not run again. */
  lemma SameTabChangeClearsWithoutFetch(s: FeedState)
    requires Valid(s)
    ensures TabChangeRequest(s, s.activeTab) == None
    ensures AfterTabChange(s, s.activeTab).posts == []
  {
  }

  /** A refresh whose request fails still lowers its indicator and keeps the
      feed, although the query has been emptied and `page` rewound. */
  lemma FailedRefreshLowersIndicator(s: FeedState)
    requires Valid(s)
    ensures var t := AfterRefresh(AfterRefreshIssued(s), Failed);
            !t.refreshing && t.posts == s.posts && t.hasMore == s.hasMore &&
            t.page == 0 && t.searchQuery == []
  {
  }

  /** Mounting requests page 0 of the first tab, and the first run of the tab
      effect requests nothing. */
  lemma MountLoadsFirstPage()
    ensures TabEffectRequest(Initial()) == None
    ensures FetchRequest(AfterTabEffect(Initial()), 0) == Some(ListRequest(None, 0, 0))
    ensures ListRequest(None, 0, 0) == Request(None, 0, 4, 0, 0)
  {
  }
}
