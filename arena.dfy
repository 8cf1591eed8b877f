/**
 * Reading a channel of the are.na bookmarking service (src/arena.ts): request
 * page 1 of the channel's contents and keep only the blocks that carry a URL.
 *
 * The contents request is foreign code; it is a parameter here, and the result
 * records the request that was issued.
 */
module Arena {
  import opened Types

  /** The page size asked for when the caller gives no (or a zero) limit. */
  const DefaultPageSize: int := 100

  /** `item.source`: the linked page, whose `url` may be missing. */
  datatype Source = Source(url: Option<string>)

  /** `item.image.original`: the full-size image, whose `url` may be missing. */
  datatype OriginalImage = OriginalImage(url: Option<string>)

  /** `item.image`: the image attachment, whose `original` may be missing. */
  datatype Image = Image(original: Option<OriginalImage>)

  /**
   * One block of a channel: its `id` and the two attributes the filter reads
   * (`source`, `image`); every other attribute is dropped. Any level of
   * `item.source?.url` and `item.image?.original?.url` may be absent.
   */
  datatype Item = Item(id: int, source: Option<Source>, image: Option<Image>)

  /** The `{ page, per }` object passed to `contents`. */
  datatype PageParams = PageParams(page: int, per: int)

  /** One call `arena.channel(slug).contents(params)`. */
  datatype ContentsRequest = ContentsRequest(channel: string, params: PageParams)

  /** What the contents request settles to: the blocks, or a rejection. */
  datatype ContentsOutcome = Contents(items: seq<Item>) | ContentsFailure(message: string)

  /** The result of `fetchChannelItems` with the request it issued. */
  datatype ChannelRead = ChannelRead(result: Result<seq<Item>, string>, requests: seq<ContentsRequest>)

  // ---------------------------------------------------------------------------
  // Request parameters

  /** JavaScript truthiness of an optional number: present and non-zero. */
  predicate LimitIsTruthy(limit: Option<int>): (truthy: bool)
    ensures truthy <==> limit != None && limit != Some(0)
  {
    limit.Some? && limit.value != 0
  }

  /** `{ page: 1, per: limit || 100 }`. */
  function RequestParams(limit: Option<int>): (params: PageParams)
    ensures params.page == 1
    ensures LimitIsTruthy(limit) ==> params.per == limit.value
    ensures !LimitIsTruthy(limit) ==> params.per == DefaultPageSize
    ensures params.per != 0
  {
    PageParams(1, if LimitIsTruthy(limit) then limit.value else DefaultPageSize)
  }

  // ---------------------------------------------------------------------------
  // The URL-presence filter

  /** JavaScript truthiness of an optional string: present and non-empty. */
  predicate UrlIsTruthy(url: Option<string>): (truthy: bool)
    ensures truthy <==> url != None && url != Some("")
  {
    url.Some? && url.value != ""
  }

  /** `item.source?.url`. */
  function SourceUrl(item: Item): (url: Option<string>)
    ensures url.Some? <==> item.source.Some? && item.source.value.url.Some?
    ensures url.Some? ==> url == item.source.value.url
  {
    match item.source
    case None => None
    case Some(source) => source.url
  }

  /** `item.image?.original?.url`. */
  function ImageUrl(item: Item): (url: Option<string>)
    ensures url.Some? <==>
      item.image.Some? && item.image.value.original.Some? && item.image.value.original.value.url.Some?
    ensures url.Some? ==> url == item.image.value.original.value.url
  {
    match item.image
    case None => None
    case Some(image) =>
      match image.original
      case None => None
      case Some(original) => original.url
  }

  /** The filter's test: `item.source?.url || item.image?.original?.url` is truthy. */
  predicate HasUrl(item: Item): (kept: bool)
    ensures kept <==>
      || (item.source.Some? && item.source.value.url.Some? && |item.source.value.url.value| > 0)
      || (&& item.image.Some? && item.image.value.original.Some?
          && item.image.value.original.value.url.Some? && |item.image.value.original.value.url.value| > 0)
  {
    UrlIsTruthy(SourceUrl(item)) || UrlIsTruthy(ImageUrl(item))
  }

  /** `contents.filter(item => item.source?.url || item.image?.original?.url)`. */
  function KeepWithUrl(items: seq<Item>): (kept: seq<Item>)
    ensures |kept| <= |items|
    ensures forall x :: x in kept <==> x in items && HasUrl(x)
  {
    if items == [] then []
    else (if HasUrl(items[0]) then [items[0]] else []) + KeepWithUrl(items[1..])
  }

  /**
   * `fetchChannelItems(arena, slug, limit)`: one contents request for page 1,
   * then the filter; a rejected request propagates.
   */
  function FetchChannelItems(
    channelSlug: string,
    limit: Option<int>,
    contents: ContentsRequest -> ContentsOutcome): (read: ChannelRead)
    ensures |read.requests| == 1
    ensures read.requests[0].channel == channelSlug
    ensures read.requests[0].params == RequestParams(limit)
    ensures contents(read.requests[0]).ContentsFailure? ==>
      read.result == Err(contents(read.requests[0]).message)
    ensures contents(read.requests[0]).Contents? ==>
      read.result == Ok(KeepWithUrl(contents(read.requests[0]).items))
    ensures contents(read.requests[0]).Contents? ==>
      read.result.Ok? && IsSubsequence(read.result.value, contents(read.requests[0]).items)
    ensures read.result.Ok? ==>
      forall x :: x in read.result.value <==> x in contents(read.requests[0]).items && HasUrl(x)
  {
    var request := ContentsRequest(channelSlug, RequestParams(limit));
    match contents(request)
    case ContentsFailure(m) => ChannelRead(Err(m), [request])
    case Contents(items) =>
      KeepWithUrlIsSubsequence(items);
      ChannelRead(Ok(KeepWithUrl(items)), [request])
  }

  // ---------------------------------------------------------------------------
  // Order: the kept items are a subsequence of the returned ones

  /** `idx` picks the elements of `sub` out of `s`, at strictly increasing positions. */
  ghost predicate Embedding<T>(idx: seq<int>, sub: seq<T>, s: seq<T>)
  {
    && |idx| == |sub|
    && (forall k :: 0 <= k < |idx| ==> 0 <= idx[k] < |s| && sub[k] == s[idx[k]])
    && (forall k, l :: 0 <= k < l < |idx| ==> idx[k] < idx[l])
  }

  /** `sub` is `s` with some elements removed and the others in their original order. */
  ghost predicate IsSubsequence<T>(sub: seq<T>, s: seq<T>)
  {
    exists idx :: Embedding(idx, sub, s)
  }

  /** Positions that pick `sub` out of `s` pick `[x] + sub` out of `[x] + s`, shifted by one. */
  lemma EmbeddingCons<T>(idx: seq<int>, sub: seq<T>, s: seq<T>, x: T, keep: bool)
    requires Embedding(idx, sub, s)
    ensures var shifted := seq(|idx|, k requires 0 <= k < |idx| => idx[k] + 1);
      if keep then Embedding([0] + shifted, [x] + sub, [x] + s)
      else Embedding(shifted, sub, [x] + s)
  {
  }

  /** The filter keeps the returned items in their original order. */
  lemma {:induction false} KeepWithUrlIsSubsequence(items: seq<Item>)
    ensures IsSubsequence(KeepWithUrl(items), items)
  {
    if items == [] {
      assert Embedding([], [], items);
    } else {
      KeepWithUrlIsSubsequence(items[1..]);
      var idx :| Embedding(idx, KeepWithUrl(items[1..]), items[1..]);
      var shifted := seq(|idx|, k requires 0 <= k < |idx| => idx[k] + 1);
      EmbeddingCons(idx, KeepWithUrl(items[1..]), items[1..], items[0], HasUrl(items[0]));
      assert [items[0]] + items[1..] == items;
      if HasUrl(items[0]) {
        assert Embedding([0] + shifted, KeepWithUrl(items), items);
      } else {
        assert Embedding(shifted, KeepWithUrl(items), items);
      }
    }
  }

  /** Filtering a concatenation filters each part: the order of the input is kept. */
  lemma {:induction false} KeepWithUrlAppend(a: seq<Item>, b: seq<Item>)
    ensures KeepWithUrl(a + b) == KeepWithUrl(a) + KeepWithUrl(b)
  {
    if a == [] {
      assert a + b == b;
    } else {
      KeepWithUrlAppend(a[1..], b);
      var head := if HasUrl(a[0]) then [a[0]] else [];
      calc {
        KeepWithUrl(a + b);
        { assert (a + b)[0] == a[0]; assert (a + b)[1..] == a[1..] + b; }
        head + KeepWithUrl(a[1..] + b);
        head + (KeepWithUrl(a[1..]) + KeepWithUrl(b));
        KeepWithUrl(a) + KeepWithUrl(b);
      }
    }
  }

  /** Each item occurs in the output as often as in the input if it has a URL, and never otherwise. */
  lemma {:induction false} KeepWithUrlCounts(items: seq<Item>, x: Item)
    ensures multiset(KeepWithUrl(items))[x] == if HasUrl(x) then multiset(items)[x] else 0
  {
    if items != [] {
      KeepWithUrlCounts(items[1..], x);
      assert items == [items[0]] + items[1..];
    }
  }

  /** The output is the input exactly when every input item has a URL. */
  lemma {:induction false} KeepWithUrlUnchangedIff(items: seq<Item>)
    ensures KeepWithUrl(items) == items <==> forall x :: x in items ==> HasUrl(x)
  {
    if items != [] {
      KeepWithUrlUnchangedIff(items[1..]);
      if !HasUrl(items[0]) {
        assert |KeepWithUrl(items)| < |items| by {
          assert KeepWithUrl(items) == KeepWithUrl(items[1..]);
        }
      }
      assert forall x :: x in items <==> x == items[0] || x in items[1..];
    }
  }

  /** Applying the filter a second time changes nothing. */
  lemma KeepWithUrlIdempotent(items: seq<Item>)
    ensures KeepWithUrl(KeepWithUrl(items)) == KeepWithUrl(items)
  {
    KeepWithUrlUnchangedIff(KeepWithUrl(items));
  }

  /**
   * The four blocks of the filtering test: a link, a source without a URL, an
   * image-only block and a bare block. The link and the image are kept, in
   * that order.
   */
  lemma MixedChannelKeepsLinkAndImage()
    ensures var items := [
        Item(1, Some(Source(Some("https://example.com/1"))), None),
        Item(2, Some(Source(None)), None),
        Item(3, None, Some(Image(Some(OriginalImage(Some("https://example.com/3")))))),
        Item(4, None, None)];
      KeepWithUrl(items) == [items[0], items[2]]
  {
  }
}
