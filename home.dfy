/** The post index page (src/pages/index.tsx): the list of loaded posts, the
    next-page cursor, the "load more" button and the merge that `handleLoad`
    performs when a fetched page arrives. */
module Home {
  import opened JsValues
  import opened Posts

  /** The two state cells of the page: `posts` and `pagination`. */
  datatype ListState = ListState(posts: seq<Post>, cursor: Option<string>)

  /** A JSON body, as far as `handleLoad` looks into it: `null` (reading a
      property of it throws), or an object whose `next_page` may be absent
      and whose `results` may be missing or not iterable (`None`). A JSON
      number, string, boolean or array body reads both properties as
      `undefined`, so it is `Object(None, None)`: the cursor is cleared and
      the posts are kept. */
  datatype Body = NullBody | Object(nextPage: Option<string>, results: Option<seq<Post>>)

  /** How the `fetch(...).then(json).then(...)` chain ends. The HTTP status
      is not inspected, so an error status with a JSON body is `Parsed`. */
  datatype FetchOutcome = NetworkError | InvalidJson | Parsed(body: Body)

  /** The state the page starts with, from its static props. */
  function Initial(p: PostPagination): ListState
  {
    ListState(p.results, p.nextPage)
  }

  /** The "load more" button is rendered exactly while the cursor is truthy. */
  function HasMore(s: ListState): bool
  {
    Truthy(s.cursor)
  }

  /** The chain reaches `setPagination`: the fetch and the JSON parse
      succeeded and the body is not `null`. */
  predicate ReachesSetters(o: FetchOutcome)
  {
    o.Parsed? && o.body.Object?
  }

  /** The chain also reaches `setPosts`: spreading `results` does not throw. */
  predicate Appends(o: FetchOutcome)
  {
    ReachesSetters(o) && o.body.results.Some?
  }

  /** The posts one outcome adds to the list. */
  function Delivered(o: FetchOutcome): seq<Post>
  {
    if Appends(o) then o.body.results.value else []
  }

  /** The state after `handleLoad` settles with outcome `o`. */
  function AfterLoad(s: ListState, o: FetchOutcome): (r: ListState)
    ensures s.posts <= r.posts
    ensures r.posts == s.posts + Delivered(o)
    ensures |r.posts| == |s.posts| + |Delivered(o)|
    ensures ReachesSetters(o) ==> r.cursor == o.body.nextPage
    ensures !ReachesSetters(o) ==> r == s
  {
    match o
    case NetworkError => s
    case InvalidJson => s
    case Parsed(NullBody) => s
    case Parsed(Object(nextPage, None)) => ListState(s.posts, nextPage)
    case Parsed(Object(nextPage, Some(results))) => ListState(s.posts + results, nextPage)
  }

  /** A click on the button: it exists only while `HasMore`, so without a
      cursor nothing happens. */
  function Click(s: ListState, o: FetchOutcome): (r: ListState)
    ensures s.posts <= r.posts
    ensures r.posts == s.posts + (if HasMore(s) then Delivered(o) else [])
    ensures HasMore(s) && ReachesSetters(o) ==> r.cursor == o.body.nextPage
    ensures !(HasMore(s) && ReachesSetters(o)) ==> r == s
  {
    if HasMore(s) then AfterLoad(s, o) else s
  }

  /** The state after a sequence of loads, one after the other. */
  function LoadAll(s: ListState, os: seq<FetchOutcome>): ListState
    decreases |os|
  {
    if os == [] then s else LoadAll(AfterLoad(s, os[0]), os[1..])
  }

  /** The state after a sequence of clicks, one after the other. */
  function ClickAll(s: ListState, os: seq<FetchOutcome>): ListState
    decreases |os|
  {
    if os == [] then s else ClickAll(Click(s, os[0]), os[1..])
  }

  /** Everything a sequence of outcomes adds, in order. */
  function AllDelivered(os: seq<FetchOutcome>): seq<Post>
    decreases |os|
  {
    if os == [] then [] else Delivered(os[0]) + AllDelivered(os[1..])
  }

  /** Concatenation law: after any sequence of loads the list is the initial
      list followed by every delivered page's results, in delivery order. */
  lemma {:induction false} LoadAllPosts(s: ListState, os: seq<FetchOutcome>)
    ensures LoadAll(s, os).posts == s.posts + AllDelivered(os)
    ensures |LoadAll(s, os).posts| == |s.posts| + |AllDelivered(os)|
    decreases |os|
  {
    if os != [] {
      var s1 := AfterLoad(s, os[0]);
      LoadAllPosts(s1, os[1..]);
      assert s1.posts + AllDelivered(os[1..]) == s.posts + (Delivered(os[0]) + AllDelivered(os[1..]));
    }
  }

  /** When the last load of a sequence reaches `setPagination`, the cursor
      ends as that response's `next_page`, whatever the earlier loads did. */
  lemma {:induction false} LoadAllCursor(s: ListState, os: seq<FetchOutcome>)
    requires os != []
    requires ReachesSetters(os[|os| - 1])
    ensures LoadAll(s, os).cursor == os[|os| - 1].body.nextPage
    decreases |os|
  {
    if |os| > 1 {
      LoadAllCursor(AfterLoad(s, os[0]), os[1..]);
    }
  }

  /** Once the cursor is falsy, clicking never changes the state again. */
  lemma {:induction false} ExhaustedIsStable(s: ListState, os: seq<FetchOutcome>)
    requires !HasMore(s)
    ensures ClickAll(s, os) == s
    decreases |os|
  {
    if os != [] {
      ExhaustedIsStable(Click(s, os[0]), os[1..]);
    }
  }

  /** The first page's posts are the projected query results and the cursor
      is the query's `next_page`. */
  lemma InitialFromQuery(response: QueryResponse, preview: Option<bool>)
    ensures Initial(GetStaticProps(response, preview).props.postsPagination).posts
         == ProjectResults(response.results)
    ensures Initial(GetStaticProps(response, preview).props.postsPagination).cursor
         == response.nextPage
  {
  }

  /** The page's state cells and the `handleLoad` handler. The ghost fields
      record the initial list and everything appended since. */
  class PostIndex {
    var posts: seq<Post>
    var pagination: Option<string>
    ghost var initial: seq<Post>
    ghost var delivered: seq<Post>

    ghost predicate Valid()
      reads this
    {
      posts == initial + delivered
    }

    function State(): ListState
      reads this
    {
      ListState(posts, pagination)
    }

    /** `useState(() => postsPagination.next_page)` and
        `useState(() => postsPagination.results)`. */
    constructor (postsPagination: PostPagination)
      ensures Valid()
      ensures State() == Initial(postsPagination)
      ensures posts == postsPagination.results && pagination == postsPagination.nextPage
      ensures initial == postsPagination.results && delivered == []
    {
      posts := postsPagination.results;
      pagination := postsPagination.nextPage;
      initial := postsPagination.results;
      delivered := [];
    }

    /** `handleLoad` once its fetch has settled with outcome `o`. */
    method HandleLoad(o: FetchOutcome)
      requires Valid()
      modifies this
      ensures Valid()
      ensures State() == AfterLoad(old(State()), o)
      ensures initial == old(initial)
      ensures delivered == old(delivered) + Delivered(o)
    {
      if o.Parsed? && o.body.Object? {
        pagination := o.body.nextPage;
        if o.body.results.Some? {
          posts := posts + o.body.results.value;
          delivered := delivered + o.body.results.value;
        }
      }
    }

    /** A click on the button, which is rendered only while `!!pagination`. */
    method ClickLoadMore(o: FetchOutcome)
      requires Valid()
      modifies this
      ensures Valid()
      ensures State() == Click(old(State()), o)
      ensures initial == old(initial)
      ensures delivered == old(delivered) + (if HasMore(old(State())) then Delivered(o) else [])
    {
      if Truthy(pagination) {
        HandleLoad(o);
      }
    }
  }
}
