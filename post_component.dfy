/** The `Post` screen component: its state hooks become fields, its handlers
    become methods that update those fields step by step. A handler that calls
    the server returns the request it sends; the separate `Complete…` method
    applies the answer when the request settles, so overlapping and
    out-of-order answers are ordinary sequences of calls. Every method is
    proved against the transition of the same name in `PostFeed`. */
module PostComponent {
  import opened Wrappers
  import opened PostFeed
  import JsString

  class Post {
    var posts: seq<PostModel>
    var page: nat
    var hasMore: bool
    var searchQuery: string
    var activeTab: nat
    var refreshing: bool
    var loadingDialog: bool
    var initialMount: bool

    /** The fields as one `PostFeed` state. */
    function State(): FeedState
      reads this
    {
      FeedState(posts, page, hasMore, searchQuery, activeTab, refreshing, loadingDialog, initialMount)
    }

    ghost predicate Valid()
      reads this
    {
      PostFeed.Valid(State())
    }

    /** The first render: the initial value of every state hook. */
    constructor ()
      ensures Valid() && State() == Initial()
    {
      posts := [];
      page := 0;
      hasMore := true;
      searchQuery := "";
      activeTab := 0;
      refreshing := false;
      loadingDialog := false;
      initialMount := true;
    }

    /** The search box's `onChangeText`. */
    method EditQuery(text: string)
      requires Valid()
      modifies this
      ensures Valid() && State() == AfterEditQuery(old(State()), text)
    {
      searchQuery := text;
    }

    /** `fetchData(pageNumber)` up to the request: the guard, then the page
      parameters under the active tab. It changes nothing. */
    method FetchData(pageNumber: nat) returns (req: Option<Request>)
      requires Valid()
      ensures req == FetchRequest(State(), pageNumber)
    {
      if !hasMore && pageNumber != 0 {
        return None;
      }
      var tab := Tabs[activeTab];
      req := Some(Request(None, pageNumber, PageSize, tab.getMyPosts, tab.getMyFriendPosts));
    }

    /** `fetchData(pageNumber)` after the request settles. */
    method CompleteFetch(pageNumber: nat, resp: Response)
      requires Valid()
      modifies this
      ensures Valid() && State() == AfterFetch(old(State()), pageNumber, resp)
    {
      if resp.Received? {
        var newPosts := resp.content;
        if pageNumber == 0 {
          posts := newPosts;
        } else {
          posts := posts + newPosts;
        }
        hasMore := |newPosts| == PageSize;
        page := pageNumber;
      }
      loadingDialog := false;
    }

    /** `handleSearch` up to the request: open the dialog, send the trimmed
      query for page 0. */
    method HandleSearch() returns (req: Request)
      requires Valid()
      modifies this
      ensures Valid() && State() == AfterSearchIssued(old(State()))
      ensures req == SearchRequest(old(State()))
    {
      loadingDialog := true;
      var tab := Tabs[activeTab];
      req := Request(Some(JsString.Trim(searchQuery)), 0, PageSize, tab.getMyPosts, tab.getMyFriendPosts);
    }

    /** `handleSearch` after the request settles. */
    method CompleteSearch(resp: Response)
      requires Valid()
      modifies this
      ensures Valid() && State() == AfterSearch(old(State()), resp)
    {
      if resp.Received? {
        posts := resp.content;
        hasMore := true;
        page := 0;
      }
      loadingDialog := false;
    }

    /** `clearSearch`: empty the query, rewind, and fetch page 0, which is never
      refused. Its answer is applied by `CompleteFetch(0, _)`. */
    method ClearSearch() returns (req: Request)
      requires Valid()
      modifies this
      ensures Valid() && State() == AfterClearSearch(old(State()))
      ensures Some(req) == FetchRequest(State(), 0)
    {
      searchQuery := "";
      page := 0;
      var r := FetchData(0);
      req := r.value;
    }

    /** `handleRefresh` up to the request: raise the indicator, empty the query,
      rewind, and fetch page 0. */
    method HandleRefresh() returns (req: Request)
      requires Valid()
      modifies this
      ensures Valid() && State() == AfterRefreshIssued(old(State()))
      ensures Some(req) == FetchRequest(State(), 0)
    {
      refreshing := true;
      searchQuery := "";
      page := 0;
      var r := FetchData(0);
      req := r.value;
    }

    /** `handleRefresh` once its fetch has settled, whatever the outcome. */
    method CompleteRefresh(resp: Response)
      requires Valid()
      modifies this
      ensures Valid() && State() == AfterRefresh(old(State()), resp)
    {
      CompleteFetch(0, resp);
      refreshing := false;
    }

    /** `handleLoadMore`, given what the fetch hook reports as `loading`. It
      changes nothing; its answer is applied by `CompleteFetch(page + 1, _)`. */
    method HandleLoadMore(loading: bool) returns (req: Option<Request>)
      requires Valid()
      ensures req == LoadMoreRequest(State(), loading)
    {
      if hasMore && !loading {
        req := FetchData(page + 1);
      } else {
        req := None;
      }
    }

    /** The effect keyed on `activeTab`. */
    method TabEffect() returns (req: Option<Request>)
      requires Valid()
      modifies this
      ensures Valid() && State() == AfterTabEffect(old(State()))
      ensures req == TabEffectRequest(old(State()))
    {
      if initialMount {
        initialMount := false;
        req := None;
      } else {
        req := FetchData(0);
      }
    }

    /** `handleTabChange(index)`, then the tab effect when the tab changed. */
    method HandleTabChange(index: nat) returns (req: Option<Request>)
      requires Valid() && index < |Tabs|
      modifies this
      ensures Valid() && State() == AfterTabChange(old(State()), index)
      ensures req == TabChangeRequest(old(State()), index)
    {
      var previous := activeTab;
      activeTab := index;
      page := 0;
      searchQuery := "";
      hasMore := true;
      posts := [];
      if index != previous {
        req := TabEffect();
      } else {
        req := None;
      }
    }

    /** The effects after the first render, in declaration order: the tab effect,
      then the mount effect's `fetchData(0)`. */
    method Mount() returns (tabReq: Option<Request>, req: Request)
      requires Valid()
      modifies this
      ensures Valid() && State() == AfterMount(old(State()))
      ensures tabReq == TabEffectRequest(old(State()))
      ensures Some(req) == FetchRequest(old(State()), 0)
    {
      tabReq := TabEffect();
      var r := FetchData(0);
      req := r.value;
    }
  }
}
