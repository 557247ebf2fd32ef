/** The news slice: an ordered list of articles and the fetch flags. */
module News {
  import opened Common

  datatype NewsItem = NewsItem(
    id: string,
    title: string,
    source: string,
    timestamp: string,   // a display string such as "2 hours ago", never parsed
    summary: string,
    imageUrl: string,
    isVideo: bool,
    url: string)

  datatype NewsState = NewsState(news: seq<NewsItem>, isLoading: bool, error: Option<string>)

  /** The actions the slice exports, one per reducer. */
  datatype NewsAction =
    | FetchNewsStart
    | FetchNewsSuccess(items: seq<NewsItem>)
    | FetchNewsFailure(message: string)
    | AddNews(item: NewsItem)

  function InitialState(seed: seq<NewsItem>): NewsState {
    NewsState(seed, false, None)
  }

  /** The slice's reducer. */
  function Reduce(s: NewsState, a: NewsAction): (r: NewsState)
    // Adding puts the item in front of the unchanged old list and leaves the flags alone.
    ensures a.AddNews? ==>
      |r.news| == |s.news| + 1 && r.news[0] == a.item && r.news[1..] == s.news &&
      r.isLoading == s.isLoading && r.error == s.error
    ensures a.FetchNewsStart? ==> r == s.(isLoading := true, error := None)
    ensures a.FetchNewsSuccess? ==> r == s.(news := a.items, isLoading := false)
    ensures a.FetchNewsFailure? ==> r == s.(isLoading := false, error := Some(a.message))
  {
    match a
    case FetchNewsStart => s.(isLoading := true, error := None)
    case FetchNewsSuccess(items) => s.(news := items, isLoading := false)
    case FetchNewsFailure(m) => s.(isLoading := false, error := Some(m))
    case AddNews(item) => s.(news := [item] + s.news)
  }

  function Ids(news: seq<NewsItem>): seq<string> {
    seq(|news|, i requires 0 <= i < |news| => news[i].id)
  }

  /** Adding performs no duplicate check: an id already present occurs once more afterwards. */
  lemma AddNewsNoDedup(s: NewsState, item: NewsItem)
    ensures multiset(Ids(Reduce(s, AddNews(item)).news))[item.id] == multiset(Ids(s.news))[item.id] + 1
  {
    assert Ids([item] + s.news) == [item.id] + Ids(s.news);
  }

  function Reversed(items: seq<NewsItem>): (r: seq<NewsItem>) {
    if |items| == 0 then [] else Reversed(items[1..]) + [items[0]]
  }

  /** One AddNews action per item, in the order given. */
  function Additions(items: seq<NewsItem>): (t: seq<NewsAction>)
    ensures |t| == |items|
    ensures forall i :: 0 <= i < |items| ==> t[i] == AddNews(items[i])
  {
    if |items| == 0 then [] else [AddNews(items[0])] + Additions(items[1..])
  }

  /** Adding a run of items one by one leaves them newest-first ahead of the old list. */
  lemma {:induction false} AdditionsPrepend(s: NewsState, items: seq<NewsItem>)
    ensures Run(Reduce, s, Additions(items)) == s.(news := Reversed(items) + s.news)
    decreases |items|
  {
    if |items| > 0 {
      var t := Additions(items);
      var s1 := Reduce(s, AddNews(items[0]));
      assert t[0] == AddNews(items[0]);
      assert t[1..] == Additions(items[1..]);
      assert Run(Reduce, s, t) == Run(Reduce, s1, Additions(items[1..]));
      AdditionsPrepend(s1, items[1..]);
      assert s1.news == [items[0]] + s.news;
      assert Reversed(items) == Reversed(items[1..]) + [items[0]];
      assert Reversed(items[1..]) + s1.news == Reversed(items) + s.news;
    }
  }

  /** The news slice as the store holds it. */
  class NewsSlice {
    var news: seq<NewsItem>
    var isLoading: bool
    var error: Option<string>

    function State(): NewsState
      reads this
    {
      NewsState(news, isLoading, error)
    }

    constructor (seed: seq<NewsItem>)
      ensures State() == InitialState(seed)
    {
      news := seed;
      isLoading, error := false, None;
    }

    method FetchNewsStart()
      modifies this
      ensures State() == Reduce(old(State()), NewsAction.FetchNewsStart)
    {
      isLoading := true;
      error := None;
    }

    method FetchNewsSuccess(items: seq<NewsItem>)
      modifies this
      ensures State() == Reduce(old(State()), NewsAction.FetchNewsSuccess(items))
    {
      news := items;
      isLoading := false;
    }

    method FetchNewsFailure(message: string)
      modifies this
      ensures State() == Reduce(old(State()), NewsAction.FetchNewsFailure(message))
    {
      isLoading := false;
      error := Some(message);
    }

    /** `unshift`: the item goes in front of the existing articles. */
    method AddNews(item: NewsItem)
      modifies this
      ensures State() == Reduce(old(State()), NewsAction.AddNews(item))
    {
      news := [item] + news;
    }
  }
}
