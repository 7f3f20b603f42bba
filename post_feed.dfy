/** The state of the home screen's post feed as a value, and every handler of the
    screen as a transition on that value. Each handler that talks to the server
    is split in two: the part that runs when the user acts (it changes some
    state and yields the list request it sends, if any) and the part that runs
    when that request settles (it applies the returned page or the failure).
    Completions are applied whenever they arrive, in whatever order: nothing
    marks a response as belonging to an older tab, search or refresh. */
module PostFeed {
  import opened Wrappers
  import JsString

  /** Posts requested per page. */
  const PageSize: nat := 4

  /** One entry of the tab bar: its title and the two 0/1 flags it sends. */
  datatype Tab = Tab(title: string, getMyPosts: nat, getMyFriendPosts: nat)

  /** Community, friends, and the user's own posts, in tab-bar order. */
  const Tabs: seq<Tab> := [
    Tab("C\U{1ED9}ng \U{0111}\U{1ED3}ng", 0, 0),
    Tab("B\U{1EA1}n b\U{00E8}", 0, 1),
    Tab("T\U{00F4}i", 1, 0)
  ]

  /** A post as the feed sees it: an opaque record named by its identifier. */
  datatype PostModel = PostModel(id: string)

  /** The query of a GET to the post listing endpoint. `content` is the search
      text, absent on plain page loads. */
  datatype Request = Request(
    content: Option<string>,
    page: nat,
    size: nat,
    getMyPosts: nat,
    getMyFriendPosts: nat)

  /** How a request settles: the listed page, or any failure of the call. */
  datatype Response = Received(content: seq<PostModel>) | Failed

  /** The screen's state. `initialMount` is the ref that makes the tab effect
      skip its first run; `loadingDialog` is the modal spinner of a search. */
  datatype FeedState = FeedState(
    posts: seq<PostModel>,
    page: nat,
    hasMore: bool,
    searchQuery: string,
    activeTab: nat,
    refreshing: bool,
    loadingDialog: bool,
    initialMount: bool)

  /** `tabs[activeTab]` names a tab. */
  predicate Valid(s: FeedState)
  {
    s.activeTab < |Tabs|
  }

  /** The fields a page completion never touches. */
  predicate SameSettings(s: FeedState, t: FeedState)
  {
    t.searchQuery == s.searchQuery && t.activeTab == s.activeTab &&
    t.refreshing == s.refreshing && t.initialMount == s.initialMount
  }

  /** The state of the first render. */
  function Initial(): (s: FeedState)
    ensures Valid(s) && s.posts == [] && s.page == 0 && s.hasMore
    ensures s.searchQuery == [] && s.activeTab == 0
    ensures !s.refreshing && !s.loadingDialog && s.initialMount
  {
    FeedState([], 0, true, "", 0, false, false, true)
  }

  /** The list query for page `page` under tab `tab`, with or without text. */
  function ListRequest(content: Option<string>, page: nat, tab: nat): (r: Request)
    requires tab < |Tabs|
    ensures r.content == content && r.page == page && r.size == PageSize
    ensures r.getMyPosts == Tabs[tab].getMyPosts && r.getMyFriendPosts == Tabs[tab].getMyFriendPosts
  {
    Request(content, page, PageSize, Tabs[tab].getMyPosts, Tabs[tab].getMyFriendPosts)
  }

  /** The issuing half of `fetchData(pageNumber)`: nothing when the feed is
      exhausted and a later page is asked for, otherwise the page request under
      the active tab, which never carries the search text. */
  function FetchRequest(s: FeedState, pageNumber: nat): (r: Option<Request>)
    requires Valid(s)
    ensures r.Some? <==> s.hasMore || pageNumber == 0
    ensures r.Some? ==> r.value.content == None && r.value.page == pageNumber && r.value.size == PageSize
    ensures r.Some? ==> r.value.getMyPosts == Tabs[s.activeTab].getMyPosts &&
                        r.value.getMyFriendPosts == Tabs[s.activeTab].getMyFriendPosts
  {
    if !s.hasMore && pageNumber != 0 then None
    else Some(ListRequest(None, pageNumber, s.activeTab))
  }

  /** How a page joins the list: page 0 replaces it, a later page is appended
      after everything already shown. */
  function Merge(posts: seq<PostModel>, pageNumber: nat, newPosts: seq<PostModel>): (r: seq<PostModel>)
    ensures pageNumber == 0 ==> r == newPosts
    ensures pageNumber != 0 ==> |r| == |posts| + |newPosts| && r[..|posts|] == posts && r[|posts|..] == newPosts
  {
    if pageNumber == 0 then newPosts else posts + newPosts
  }

  /** The completing half of `fetchData(pageNumber)`. A received page is merged,
      `hasMore` records whether it was full and `page` becomes `pageNumber`; a
      failure keeps the feed. Either way the loading dialog is closed. */
  function AfterFetch(s: FeedState, pageNumber: nat, resp: Response): (t: FeedState)
    ensures SameSettings(s, t) && !t.loadingDialog
    ensures resp.Received? ==> t.posts == Merge(s.posts, pageNumber, resp.content)
    ensures resp.Received? ==> (t.hasMore <==> |resp.content| == PageSize) && t.page == pageNumber
    ensures resp.Failed? ==> t.posts == s.posts && t.page == s.page && t.hasMore == s.hasMore
  {
    match resp
    case Received(newPosts) =>
      s.(posts := Merge(s.posts, pageNumber, newPosts), hasMore := |newPosts| == PageSize,
         page := pageNumber, loadingDialog := false)
    case Failed =>
      s.(loadingDialog := false)
  }

  /** Typing in the search box. */
  function AfterEditQuery(s: FeedState, text: string): (t: FeedState)
    ensures t.searchQuery == text
    ensures t == s.(searchQuery := t.searchQuery)
  {
    s.(searchQuery := text)
  }

  /** `handleSearch` as issued: it opens the loading dialog. */
  function AfterSearchIssued(s: FeedState): (t: FeedState)
    ensures t.loadingDialog
    ensures t == s.(loadingDialog := true)
  {
    s.(loadingDialog := true)
  }

  /** The request `handleSearch` sends: the trimmed query, page 0, the active
      tab's flags. */
  function SearchRequest(s: FeedState): (r: Request)
    requires Valid(s)
    ensures r.content == Some(JsString.Trim(s.searchQuery)) && r.page == 0 && r.size == PageSize
    ensures r.getMyPosts == Tabs[s.activeTab].getMyPosts &&
            r.getMyFriendPosts == Tabs[s.activeTab].getMyFriendPosts
  {
    ListRequest(Some(JsString.Trim(s.searchQuery)), 0, s.activeTab)
  }

  /** `handleSearch` as completed: the results replace the list, `hasMore` is
      set whatever their number and `page` goes back to 0; a failure keeps the
      feed. Either way the loading dialog is closed. */
  function AfterSearch(s: FeedState, resp: Response): (t: FeedState)
    ensures SameSettings(s, t) && !t.loadingDialog
    ensures resp.Received? ==> t.posts == resp.content && t.hasMore && t.page == 0
    ensures resp.Failed? ==> t.posts == s.posts && t.page == s.page && t.hasMore == s.hasMore
  {
    match resp
    case Received(results) => s.(posts := results, hasMore := true, page := 0, loadingDialog := false)
    case Failed => s.(loadingDialog := false)
  }

  /** `clearSearch` and the first half of `handleRefresh` both empty the query
      and rewind the page; refresh also raises its indicator. */
  function AfterClearSearch(s: FeedState): (t: FeedState)
    ensures t.searchQuery == [] && t.page == 0
    ensures t == s.(searchQuery := [], page := 0)
  {
    s.(searchQuery := "", page := 0)
  }

  function AfterRefreshIssued(s: FeedState): (t: FeedState)
    ensures t.refreshing && t.searchQuery == [] && t.page == 0
    ensures t == s.(refreshing := true, searchQuery := [], page := 0)
  {
    AfterClearSearch(s).(refreshing := true)
  }

  /** The refresh's page-0 fetch settles, successfully or not (`fetchData`
      catches its own errors), and only then is the indicator lowered. */
  function AfterRefresh(s: FeedState, resp: Response): (t: FeedState)
    ensures !t.refreshing && !t.loadingDialog
    ensures t.searchQuery == s.searchQuery && t.activeTab == s.activeTab && t.initialMount == s.initialMount
    ensures resp.Received? ==> t.posts == resp.content && t.page == 0 && (t.hasMore <==> |resp.content| == PageSize)
    ensures resp.Failed? ==> t.posts == s.posts && t.page == s.page && t.hasMore == s.hasMore
  {
    AfterFetch(s, 0, resp).(refreshing := false)
  }

  /** `handleLoadMore`: the next page, only while more may exist and the fetch
      hook reports nothing loading. */
  function LoadMoreRequest(s: FeedState, loading: bool): (r: Option<Request>)
    requires Valid(s)
    ensures r.Some? <==> s.hasMore && !loading
    ensures r.Some? ==> r == FetchRequest(s, s.page + 1) && r.value.page == s.page + 1
  {
    if s.hasMore && !loading then FetchRequest(s, s.page + 1) else None
  }

  /** The effect keyed on `activeTab`: its first run only clears the
      initial-mount ref, every later run fetches page 0. */
  function AfterTabEffect(s: FeedState): (t: FeedState)
    ensures !t.initialMount
    ensures t == s.(initialMount := false)
  {
    s.(initialMount := false)
  }

  function TabEffectRequest(s: FeedState): (r: Option<Request>)
    requires Valid(s)
    ensures r.Some? <==> !s.initialMount
    ensures r.Some? ==> r == FetchRequest(s, 0)
  {
    if s.initialMount then None else FetchRequest(s, 0)
  }

  /** The state `handleTabChange(index)` sets before the effect runs. */
  function TabChangeHandled(s: FeedState, index: nat): (t: FeedState)
    requires index < |Tabs|
    ensures Valid(t) && t.activeTab == index
    ensures t.page == 0 && t.searchQuery == [] && t.hasMore && t.posts == []
    ensures t == s.(activeTab := index, page := 0, searchQuery := [], hasMore := true, posts := [])
  {
    s.(activeTab := index, page := 0, searchQuery := "", hasMore := true, posts := [])
  }

  /** `handleTabChange(index)` followed by the tab effect, which React runs only
      when `activeTab` actually changed. */
  function AfterTabChange(s: FeedState, index: nat): (t: FeedState)
    requires index < |Tabs|
    ensures Valid(t) && t.activeTab == index
    ensures t.page == 0 && t.searchQuery == [] && t.hasMore && t.posts == []
    ensures t.refreshing == s.refreshing && t.loadingDialog == s.loadingDialog
    ensures t.initialMount == (s.initialMount && index == s.activeTab)
  {
    var h := TabChangeHandled(s, index);
    if index != s.activeTab then AfterTabEffect(h) else h
  }

  /** The fetch a tab change causes: page 0 under the new tab's flags, unless
      the tab did not change or this is the effect's first run. */
  function TabChangeRequest(s: FeedState, index: nat): (r: Option<Request>)
    requires index < |Tabs|
    ensures r.Some? <==> index != s.activeTab && !s.initialMount
    ensures r.Some? ==> r.value == ListRequest(None, 0, index)
  {
    if index != s.activeTab then TabEffectRequest(TabChangeHandled(s, index)) else None
  }

  /** The one field the mount effects change: both effects run after the first
      render, the tab effect first. */
  function AfterMount(s: FeedState): (t: FeedState)
    ensures !t.initialMount
    ensures t == s.(initialMount := false)
  {
    AfterTabEffect(s)
  }
}
