/**
 * The `redditRead` tool of src/tools/redditRead.ts: the request URL built
 * from what the user gives, the checks on Reddit's JSON reply, and the
 * depth-bounded walk over the comment tree. The HTTP request is a function
 * parameter from URL to reply body, or to the message of the error it
 * throws.
 */
module Reddit {
  import opened Wrappers
  import opened Strings
  import opened Values

  const RedditHost := "https://www.reddit.com"
  const InvalidMessage := "Invalid Reddit post URL or no data found"
  const FailedMessage := "Failed to read Reddit post"

  // ---------------------------------------------------------------- the URL

  /** A bare '/r/' path put on Reddit's host. */
  function WithHost(url: string): string
  {
    if StartsWith(url, "/r/") then RedditHost + url else url
  }

  /** `replace(/\/$/, '')`: one trailing '/' dropped. */
  function WithoutTrailingSlash(url: string): (r: string)
    ensures r == url || url == r + "/"
  {
    if EndsWith(url, "/") then url[..|url| - 1] else url
  }

  /** The URL cleaned as `run` does: trimmed, put on Reddit's host, one trailing '/' dropped, '.json' added. */
  function NormalizeUrl(url: string): (r: string)
    ensures EndsWith(r, ".json")
  {
    var r := WithoutTrailingSlash(WithHost(Trim(url))) + ".json";
    assert r[|r| - 5..] == ".json";
    r
  }

  /** The URL requested: the cleaned URL with `limit`, `depth` and `raw_json=1` as query parameters. */
  function RequestUrl(url: string, limit: int, depth: int): (r: string)
    ensures StartsWith(r, NormalizeUrl(url) + "?limit=") && EndsWith(r, "&raw_json=1")
  {
    var query := IntToString(limit) + "&depth=" + IntToString(depth);
    Affixes(NormalizeUrl(url) + "?limit=", query, "&raw_json=1");
    NormalizeUrl(url) + "?limit=" + query + "&raw_json=1"
  }

  // ---------------------------------------------------------------- the reply

  /** A comment as the tool returns it. */
  datatype Comment = Comment(id: Value, author: Value, body: Value, score: Value, createdUtc: Value,
                             depth: int, replies: seq<Comment>)

  datatype Post = Post(title: Value, selftext: Value, url: Value, permalink: string, subreddit: Value,
                       author: Value, score: Value, numComments: Value, createdUtc: Value, upvoteRatio: Value)

  /** What `run` returns: the post with its comments, the invalid-reply error, or the caught error with its message. */
  datatype ReadResult =
    | Read(post: Post, comments: seq<Comment>, totalComments: nat)
    | Invalid(error: string)
    | Failed(error: string, details: string)

  /** Property reads one after another, `v[k0][k1]...`, each throwing on `undefined` or `null`. */
  function Chain(v: Value, keys: seq<string>): (r: Result<Value>)
    decreases |keys|
  {
    if keys == [] then Ok(v)
    else
      match Get(v, keys[0])
      case Err(e) => Err(e)
      case Ok(next) => Chain(next, keys[1..])
  }

  /** The items `for...of` visits: an array's elements or a string's characters; anything else is not iterable. */
  function Iterate(list: Value): (r: Result<seq<Value>>)
    ensures list.Arr? ==> r == Ok(list.items)
  {
    match list
    case Arr(items) => Ok(items)
    case Str(s) => Ok(seq(|s|, i requires 0 <= i < |s| => Str([s[i]])))
    case _ => Err("commentsList is not iterable")
  }

  /** The comment object built from a listing item's `data`. */
  function MakeComment(data: Value, level: int, replies: seq<Comment>): Comment
  {
    Comment(Opt(data, "id"), Opt(data, "author"), Opt(data, "body"), Opt(data, "score"), Opt(data, "created_utc"),
            level, replies)
  }

  /** A body worth keeping: not empty, not '[deleted]', not '[removed]'. */
  predicate KeptBody(body: Value)
  {
    Truthy(body) && body != Str("[deleted]") && body != Str("[removed]")
  }

  /** An item that is skipped: a 'more' item, or one whose body is not worth keeping. */
  predicate Skipped(data: Value)
  {
    Opt(data, "kind") == Str("more") || !KeptBody(Opt(data, "body"))
  }

  /** `comment.replies && comment.replies.data && comment.replies.data.children` */
  function RepliesList(data: Value): Value
  {
    var replies := Opt(data, "replies");
    if !Truthy(replies) then replies
    else
      var inner := Opt(replies, "data");
      if !Truthy(inner) then inner else Opt(inner, "children")
  }

  /** The level a call starts from, as a measure that falls with each level down. */
  function Remaining(depth: int, level: int): nat
  {
    if level < depth then depth - level else 0
  }

  /**
   * `extractComments(list, level)`: nothing at or beyond the depth limit;
   * otherwise the comments of the kept items, in order.
   */
  function Comments(list: Value, depth: int, level: int): (r: Result<seq<Comment>>)
    ensures level >= depth ==> r == Ok([])
    decreases Remaining(depth, level), 2, 0
  {
    if level >= depth then Ok([])
    else
      match Iterate(list)
      case Err(e) => Err(e)
      case Ok(items) => ItemsComments(items, depth, level)
  }

  /** The loop of `extractComments` over `items`. */
  function ItemsComments(items: seq<Value>, depth: int, level: int): (r: Result<seq<Comment>>)
    requires level < depth
    ensures r.Ok? ==> |r.value| <= |items| && forall i | 0 <= i < |r.value| :: r.value[i].depth == level
    decreases Remaining(depth, level), 1, |items|
  {
    if items == [] then Ok([])
    else
      match ItemsComments(items[..|items| - 1], depth, level)
      case Err(e) => Err(e)
      case Ok(done) =>
        match ItemComment(items[|items| - 1], depth, level)
        case Err(e) => Err(e)
        case Ok(None) => Ok(done)
        case Ok(Some(c)) => Ok(done + [c])
  }

  /** One turn of that loop: the item's comment, nothing for a skipped item, or the error reading it throws. */
  function ItemComment(item: Value, depth: int, level: int): (r: Result<Option<Comment>>)
    requires level < depth
    ensures r.Ok? && r.value.Some? ==>
      r.value.value.depth == level && Get(item, "data").Ok? && r.value.value.body == Opt(Get(item, "data").value, "body")
    decreases Remaining(depth, level), 0, 0
  {
    match Get(item, "data")
    case Err(e) => Err(e)
    case Ok(data) =>
      if Nullish(data) then Err(Get(data, "kind").error)
      else if Skipped(data) then Ok(None)
      else
        var list := RepliesList(data);
        if !Truthy(list) then Ok(Some(MakeComment(data, level, [])))
        else
          match Comments(list, depth, level + 1)
          case Err(e) => Err(e)
          case Ok(replies) => Ok(Some(MakeComment(data, level, replies)))
  }

  /** The result for the reply body `data`, once the request has returned. */
  function Outcome(data: Value, depth: int): (r: ReadResult)
    ensures !data.Arr? || |data.items| < 2 ==> r == Invalid(InvalidMessage)
    ensures r.Read? ==> r.totalComments == |r.comments|
  {
    if !Truthy(data) || !IsArray(data) || |data.items| < 2 then Invalid(InvalidMessage)
    else
      match Chain(data, ["0", "data", "children", "0", "data"])
      case Err(e) => Failed(FailedMessage, e)
      case Ok(postData) =>
        match Chain(data, ["1", "data", "children"])
        case Err(e) => Failed(FailedMessage, e)
        case Ok(commentsData) =>
          if Nullish(postData) then Failed(FailedMessage, Get(postData, "title").error)
          else
            match Comments(commentsData, depth, 0)
            case Err(e) => Failed(FailedMessage, e)
            case Ok(comments) => Read(MakePost(postData), comments, |comments|)
  }

  /** The post fields `run` copies, with the permalink put on Reddit's host. */
  function MakePost(data: Value): (r: Post)
    ensures r.title == Opt(data, "title") && r.selftext == Opt(data, "selftext")
    ensures StartsWith(r.permalink, RedditHost)
  {
    Post(Opt(data, "title"), Opt(data, "selftext"), Opt(data, "url"), RedditHost + ToText(Opt(data, "permalink")),
         Opt(data, "subreddit"), Opt(data, "author"), Opt(data, "score"), Opt(data, "num_comments"),
         Opt(data, "created_utc"), Opt(data, "upvote_ratio"))
  }

  /** `run`: the request, then the reply checked and walked; a thrown error becomes the failure object. */
  function Run(url: string, limit: int, depth: int, fetch: string -> Result<Value>): (r: ReadResult)
    ensures fetch(RequestUrl(url, limit, depth)).Err? ==> r == Failed(FailedMessage, fetch(RequestUrl(url, limit, depth)).error)
    ensures r.Read? ==> fetch(RequestUrl(url, limit, depth)).Ok? && r.totalComments == |r.comments|
  {
    match fetch(RequestUrl(url, limit, depth))
    case Err(e) => Failed(FailedMessage, e)
    case Ok(data) => Outcome(data, depth)
  }

  // ---------------------------------------------------------------- the walk, as the source writes it

  /** `extractComments`: the loop over the listing, pushing each kept comment. */
  method ExtractComments(list: Value, depth: int, level: int) returns (r: Result<seq<Comment>>)
    ensures r == Comments(list, depth, level)
    decreases Remaining(depth, level), 1
  {
    if level >= depth {
      return Ok([]);
    }
    var items := Iterate(list);
    if items.Err? {
      return Err(items.error);
    }
    var comments: seq<Comment> := [];
    for i := 0 to |items.value|
      invariant ItemsComments(items.value[..i], depth, level) == Ok(comments)
    {
      var c := ExtractItem(items.value[i], depth, level);
      ItemsNext(items.value, depth, level, i, comments, c);
      if c.Err? {
        ErrorStops(items.value, depth, level, i + 1);
        assert items.value[..|items.value|] == items.value;
        return Err(c.error);
      }
      if c.value.Some? {
        comments := comments + [c.value.value];
      }
    }
    assert items.value[..|items.value|] == items.value;
    return Ok(comments);
  }

  /** The body of that loop for one item: skipped, or its comment with the replies walked one level down. */
  method ExtractItem(item: Value, depth: int, level: int) returns (r: Result<Option<Comment>>)
    requires level < depth
    ensures r == ItemComment(item, depth, level)
    decreases Remaining(depth, level), 0
  {
    var data := Get(item, "data");
    if data.Err? {
      return Err(data.error);
    }
    if Nullish(data.value) {
      return Err(Get(data.value, "kind").error);
    }
    if Skipped(data.value) {
      return Ok(None);
    }
    var replies: seq<Comment> := [];
    var children := RepliesList(data.value);
    if Truthy(children) {
      var sub := ExtractComments(children, depth, level + 1);
      if sub.Err? {
        return Err(sub.error);
      }
      replies := sub.value;
    }
    return Ok(Some(MakeComment(data.value, level, replies)));
  }

  /** One more item extends the loop's result by that item's comment, or stops it with that item's error. */
  lemma ItemsNext(items: seq<Value>, depth: int, level: int, i: nat, done: seq<Comment>, c: Result<Option<Comment>>)
    requires level < depth && i < |items| && ItemsComments(items[..i], depth, level) == Ok(done)
    requires c == ItemComment(items[i], depth, level)
    ensures c.Err? ==> ItemsComments(items[..i + 1], depth, level) == Err(c.error)
    ensures c.Ok? && c.value.None? ==> ItemsComments(items[..i + 1], depth, level) == Ok(done)
    ensures c.Ok? && c.value.Some? ==> ItemsComments(items[..i + 1], depth, level) == Ok(done + [c.value.value])
  {
    assert items[..i + 1][..i] == items[..i];
  }

  /** An error in the first `k` items is the error of the whole loop. */
  lemma {:induction false} ErrorStops(items: seq<Value>, depth: int, level: int, k: nat)
    requires level < depth && k <= |items| && ItemsComments(items[..k], depth, level).Err?
    ensures ItemsComments(items, depth, level) == ItemsComments(items[..k], depth, level)
    decreases |items| - k
  {
    if k < |items| {
      assert items[..k + 1][..k] == items[..k];
      ErrorStops(items, depth, level, k + 1);
    } else {
      assert items[..k] == items;
    }
  }

  /** `run` with the walk done by `ExtractComments`. */
  method ReadPost(url: string, limit: int, depth: int, fetch: string -> Result<Value>) returns (r: ReadResult)
    ensures r == Run(url, limit, depth, fetch)
  {
    var response := fetch(RequestUrl(url, limit, depth));
    if response.Err? {
      return Failed(FailedMessage, response.error);
    }
    r := ReadReply(response.value, depth);
  }

  /** The part of `run` after the request: the checks on the reply body and the walk. */
  method ReadReply(data: Value, depth: int) returns (r: ReadResult)
    ensures r == Outcome(data, depth)
  {
    if !Truthy(data) || !IsArray(data) || |data.items| < 2 {
      return Invalid(InvalidMessage);
    }
    var postData := Chain(data, ["0", "data", "children", "0", "data"]);
    if postData.Err? {
      return Failed(FailedMessage, postData.error);
    }
    var commentsData := Chain(data, ["1", "data", "children"]);
    if commentsData.Err? {
      return Failed(FailedMessage, commentsData.error);
    }
    if Nullish(postData.value) {
      return Failed(FailedMessage, Get(postData.value, "title").error);
    }
    var comments := ExtractComments(commentsData.value, depth, 0);
    if comments.Err? {
      return Failed(FailedMessage, comments.error);
    }
    return Read(MakePost(postData.value), comments.value, |comments.value|);
  }

  // ---------------------------------------------------------------- properties

  /** Every comment sits at its nesting level, below the depth limit, with a body that was kept, and so do its replies one level down. */
  predicate WellNested(cs: seq<Comment>, level: int, depth: int)
    decreases cs
  {
    forall i | 0 <= i < |cs| ::
      cs[i].depth == level && level < depth && KeptBody(cs[i].body)
      && WellNested(cs[i].replies, level + 1, depth)
  }

  /** The comments of a listing are well nested from the level the walk starts at. */
  lemma {:induction false} CommentsWellNested(list: Value, depth: int, level: int)
    requires Comments(list, depth, level).Ok?
    ensures WellNested(Comments(list, depth, level).value, level, depth)
    decreases Remaining(depth, level), 2, 0
  {
    if level < depth {
      ItemsWellNested(Iterate(list).value, depth, level);
    }
  }

  lemma {:induction false} ItemsWellNested(items: seq<Value>, depth: int, level: int)
    requires level < depth && ItemsComments(items, depth, level).Ok?
    ensures WellNested(ItemsComments(items, depth, level).value, level, depth)
    decreases Remaining(depth, level), 1, |items|
  {
    if items != [] {
      var init := items[..|items| - 1];
      ItemsWellNested(init, depth, level);
      var item := ItemComment(items[|items| - 1], depth, level);
      if item.value.Some? {
        ItemWellNested(items[|items| - 1], depth, level);
        var done := ItemsComments(init, depth, level).value;
        var all := done + [item.value.value];
        assert forall i | 0 <= i < |done| :: all[i] == done[i];
      }
    }
  }

  lemma {:induction false} ItemWellNested(item: Value, depth: int, level: int)
    requires level < depth && ItemComment(item, depth, level).Ok? && ItemComment(item, depth, level).value.Some?
    ensures var c := ItemComment(item, depth, level).value.value;
      c.depth == level && KeptBody(c.body) && WellNested(c.replies, level + 1, depth)
    decreases Remaining(depth, level), 0, 0
  {
    var data := Get(item, "data").value;
    var list := RepliesList(data);
    if Truthy(list) {
      CommentsWellNested(list, depth, level + 1);
    }
  }

  /** So no comment returned reaches the depth limit, however deep the thread goes. */
  lemma TopLevelBelowLimit(data: Value, depth: int)
    requires Outcome(data, depth).Read?
    ensures WellNested(Outcome(data, depth).comments, 0, depth)
  {
    var commentsData := Chain(data, ["1", "data", "children"]).value;
    CommentsWellNested(commentsData, depth, 0);
  }

  /** The walk keeps at most one comment per item, so a listing never grows. */
  lemma {:induction false} ItemsAtMost(items: seq<Value>, depth: int, level: int)
    requires level < depth && ItemsComments(items, depth, level).Ok?
    ensures |ItemsComments(items, depth, level).value| <= |items|
    decreases |items|
  {
    if items != [] {
      ItemsAtMost(items[..|items| - 1], depth, level);
    }
  }

  /** The `data` of the items the walk keeps, in order: those that can be read and are not skipped. */
  function KeptData(items: seq<Value>): (r: seq<Value>)
    ensures |r| <= |items|
  {
    if items == [] then []
    else
      var data := Get(items[|items| - 1], "data");
      KeptData(items[..|items| - 1]) + (if data.Ok? && !Skipped(data.value) then [data.value] else [])
  }

  /** A turn of the loop that succeeds reads the item's `data`, keeps exactly the unskipped ones, and builds the comment from that data. */
  lemma ItemKept(item: Value, depth: int, level: int)
    requires level < depth && ItemComment(item, depth, level).Ok?
    ensures Get(item, "data").Ok?
    ensures var data := Get(item, "data").value;
      var c := ItemComment(item, depth, level).value;
      (c.Some? <==> !Skipped(data)) && (c.Some? ==> c.value == MakeComment(data, level, c.value.replies))
  { }

  /**
   * A loop that succeeds returns one comment per kept item, in the items'
   * order, each built from that item's data at this level.
   */
  lemma {:induction false} CommentsAreKeptItems(items: seq<Value>, depth: int, level: int)
    requires level < depth && ItemsComments(items, depth, level).Ok?
    ensures var cs := ItemsComments(items, depth, level).value;
      var kept := KeptData(items);
      |cs| == |kept| && forall j | 0 <= j < |cs| :: cs[j] == MakeComment(kept[j], level, cs[j].replies)
    decreases |items|
  {
    if items != [] {
      var init := items[..|items| - 1];
      CommentsAreKeptItems(init, depth, level);
      ItemKept(items[|items| - 1], depth, level);
    }
  }

  /** Trimming a text that starts and ends with a non-space leaves it as it is. */
  lemma TrimKeeps(s: string)
    requires s != [] && !IsSpace(s[0]) && !IsSpace(s[|s| - 1])
    ensures Trim(s) == s
  {
    assert TrimStart(s) == s;
  }

  /** A '/r/' path and the same path on Reddit's host are requested the same way. */
  lemma PathAndFullUrlAgree(path: string)
    requires StartsWith(path, "/r/") && !IsSpace(path[|path| - 1])
    ensures NormalizeUrl(path) == NormalizeUrl(RedditHost + path)
  {
    var full := RedditHost + path;
    TrimKeeps(path);
    assert full[0] == 'h' && full[|full| - 1] == path[|path| - 1];
    TrimKeeps(full);
    assert WithHost(full) == full;
  }

  /**
   * A single trailing '/' makes no difference to the URL requested, except
   * for the URL "/r", which the slash turns into a path on Reddit's host.
   */
  lemma TrailingSlashIgnored(url: string)
    requires url != [] && !IsSpace(url[0]) && !IsSpace(url[|url| - 1]) && url[|url| - 1] != '/' && url != "/r"
    ensures NormalizeUrl(url + "/") == NormalizeUrl(url)
  {
    var slashed := url + "/";
    TrimKeeps(url);
    assert slashed[0] == url[0];
    TrimKeeps(slashed);
    HostKeepsSlash(url);
    HostAddsNoSlash(url);
    var full := WithHost(url);
    assert (full + "/")[..|full|] == full;
  }

  /** Putting a URL on Reddit's host commutes with adding one trailing '/', except for "/r". */
  lemma HostKeepsSlash(url: string)
    requires url != [] && url != "/r"
    ensures WithHost(url + "/") == WithHost(url) + "/"
  {
    var slashed := url + "/";
    if |url| >= 3 {
      assert slashed[..3] == url[..3];
    } else if |url| == 2 {
      assert url == slashed[..2];
    }
  }

  /** A URL that does not end in '/' does not end in '/' on Reddit's host either. */
  lemma HostAddsNoSlash(url: string)
    requires url != [] && url[|url| - 1] != '/'
    ensures !EndsWith(WithHost(url), "/")
  {
    var full := WithHost(url);
    assert full[|full| - 1] == url[|url| - 1];
  }
}
