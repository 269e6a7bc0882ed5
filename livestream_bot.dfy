/**
 * The `LiveStreamChatBot` of `main.py`: each fetch cycle pages through the
 * live chat until caught up, then walks the collected items from the last one
 * backwards, queueing those newer than `last_timestamp` until the first that
 * is not (or is the bot's own), and keeps a rolling context of at most 100
 * prompt entries. The API client's pages and the bot's replies are inputs.
 */
module LiveStreamBot {
  import opened Wrappers
  import opened PyStrings
  import opened Records
  import opened Queues
  import opened Dom
  import Api = ApiChat

  /** `max_results` of every page request: a shorter page means the chat is caught up. */
  const MaxResults := 100

  /** `buffer_time`, in milliseconds. */
  const BufferMillis := 5000

  /** The `pollingIntervalMillis` used when a page does not give one. */
  const DefaultPollingMillis := 10000

  /** `self.max_global_context_length`, also the literal 100 of `process_messages`. */
  const MaxContext := 100

  /** One page from `get_live_chat_messages`: its items, and its optional interval and next-page token. */
  datatype PageReply = PageReply(items: seq<Api.ChatItem>, pollingIntervalMillis: Option<int>, nextPageToken: Option<string>)

  /** The test that ends the pagination loop: no next-page token, or a short page. */
  predicate IsLastPage(p: PageReply) {
    !Api.Truthy(p.nextPageToken) || |p.items| < MaxResults
  }

  /** `pollingIntervalMillis / 1000 + buffer_time`, kept in milliseconds. */
  function IntervalMillis(p: PageReply): int {
    p.pollingIntervalMillis.GetOr(DefaultPollingMillis) + BufferMillis
  }

  /** The accumulator after the first `n` pages: each page's items put in front of what came before. */
  function Accumulated(pages: seq<PageReply>, n: nat): seq<Api.ChatItem>
    requires n <= |pages|
  {
    if n == 0 then [] else pages[n - 1].items + Accumulated(pages, n - 1)
  }

  /** The item lists of some pages, in page order. */
  function PageItems(pages: seq<PageReply>): (ls: seq<seq<Api.ChatItem>>)
    ensures |ls| == |pages|
    ensures forall k :: 0 <= k < |pages| ==> ls[k] == pages[k].items
  {
    seq(|pages|, k requires 0 <= k < |pages| => pages[k].items)
  }

  /** The lists of `ls` one after the other. */
  function Concat<T>(ls: seq<seq<T>>): seq<T> {
    if ls == [] then [] else ls[0] + Concat(ls[1..])
  }

  /** After pages p1 .. pn the accumulator is pn ++ ... ++ p1: the newest page first. */
  lemma {:induction false} AccumulatedNewestPageFirst(pages: seq<PageReply>, n: nat)
    requires n <= |pages|
    ensures Accumulated(pages, n) == Concat(Reverse(PageItems(pages[..n])))
    decreases n
  {
    if n > 0 {
      AccumulatedNewestPageFirst(pages, n - 1);
      var ls := PageItems(pages[..n]);
      assert ls == PageItems(pages[..n - 1]) + [pages[n - 1].items];
      ReverseAppend(PageItems(pages[..n - 1]), [pages[n - 1].items]);
      var r := Reverse(ls);
      assert r[0] == pages[n - 1].items;
      assert r[1..] == Reverse(PageItems(pages[..n - 1]));
    } else {
      assert PageItems(pages[..0]) == [];
    }
  }

  /** The requests of the pagination loop: the first without a token, each later one with the token of the page before. */
  function TokenFor(pages: seq<PageReply>, k: nat): Option<string>
    requires k <= |pages|
  {
    if k == 0 then None else pages[k - 1].nextPageToken
  }

  /**
   * What one `get_live_chat_messages` call gives back: a page; an exception
   * from the client (an `HttpError` or a network error: the call sits outside
   * any `try`); or a reply without `items`, whose lookup raises `KeyError`.
   * Either exception ends `fetch_messages`, and with it the fetch thread.
   */
  datatype Reply = Answered(page: PageReply) | RequestFailed | ItemsMissing

  /** The first `n` replies are pages. */
  predicate AnsweredUpTo(replies: seq<Reply>, n: nat) {
    n <= |replies| && forall k :: 0 <= k < n ==> replies[k].Answered?
  }

  /** The pages of the first `n` replies. */
  function PagesOf(replies: seq<Reply>, n: nat): (pages: seq<PageReply>)
    requires AnsweredUpTo(replies, n)
    ensures |pages| == n
    ensures forall k :: 0 <= k < n ==> pages[k] == replies[k].page
  {
    seq(n, k requires 0 <= k < n => replies[k].page)
  }

  /** How many of `sent` requests were answered with a page: all, or all but the last when it raised. */
  function Served(sent: nat, raised: bool): nat
    requires raised ==> sent > 0
  {
    if raised then sent - 1 else sent
  }

  /** Pages after the first `n` do not change the accumulator after `n`. */
  lemma {:induction false} AccumulatedSnoc(pages: seq<PageReply>, p: PageReply, n: nat)
    requires n <= |pages|
    ensures Accumulated(pages + [p], n) == Accumulated(pages, n)
    decreases n
  {
    if n > 0 {
      AccumulatedSnoc(pages, p, n - 1);
      assert (pages + [p])[n - 1] == pages[n - 1];
    }
  }

  /** One more answered reply adds its page to the pages. */
  lemma PagesOfSnoc(replies: seq<Reply>, n: nat)
    requires AnsweredUpTo(replies, n + 1)
    ensures PagesOf(replies, n + 1) == PagesOf(replies, n) + [replies[n].page]
  {
  }

  /** One more page extends the tokens sent so far by the one for its request. */
  lemma TokensSnoc(pages: seq<PageReply>, p: PageReply, tokens: seq<Option<string>>)
    requires |tokens| == |pages| + 1
    requires forall k :: 0 <= k < |tokens| ==> tokens[k] == TokenFor(pages, k)
    ensures forall k :: 0 <= k < |tokens| ==> tokens[k] == TokenFor(pages + [p], k)
    ensures forall k :: 0 <= k < |pages| ==> (pages + [p])[k] == pages[k]
  {
  }

  /**
   * The pagination loop of `fetch_messages`, the client answering with
   * `replies` in turn: the page tokens it sent, whether a request raised, the
   * items accumulated from the pages before that, and the polling interval
   * (`interval0` when no page came). The loop also ends when `replies` runs out.
   */
  method Paginate(replies: seq<Reply>, interval0: int) returns (tokens: seq<Option<string>>, latest: seq<Api.ChatItem>, interval: int, raised: bool)
    ensures |tokens| <= |replies|
    ensures raised ==> |tokens| > 0 && !replies[|tokens| - 1].Answered?
    ensures AnsweredUpTo(replies, Served(|tokens|, raised))
    ensures var pages := PagesOf(replies, Served(|tokens|, raised));
      forall k :: 0 <= k < |tokens| ==> tokens[k] == TokenFor(pages, k)
    ensures var pages := PagesOf(replies, Served(|tokens|, raised));
      latest == Accumulated(pages, |pages|)
    ensures var pages := PagesOf(replies, Served(|tokens|, raised));
      forall k :: 0 <= k < |tokens| - 1 ==> !IsLastPage(pages[k])
    ensures !raised ==> |tokens| == |replies| || (|tokens| > 0 && IsLastPage(PagesOf(replies, |tokens|)[|tokens| - 1]))
    ensures var pages := PagesOf(replies, Served(|tokens|, raised));
      interval == if |pages| == 0 then interval0 else IntervalMillis(pages[|pages| - 1])
  {
    tokens, latest, interval, raised := [], [], interval0, false;
    var nextPageToken: Option<string> := None;
    ghost var pages: seq<PageReply> := [];
    while |tokens| < |replies|
      invariant |tokens| <= |replies| && !raised
      invariant AnsweredUpTo(replies, |tokens|) && pages == PagesOf(replies, |tokens|)
      invariant forall k :: 0 <= k < |tokens| ==> tokens[k] == TokenFor(pages, k)
      invariant nextPageToken == TokenFor(pages, |tokens|)
      invariant latest == Accumulated(pages, |tokens|)
      invariant forall k :: 0 <= k < |tokens| ==> !IsLastPage(pages[k])
      invariant interval == if |tokens| == 0 then interval0 else IntervalMillis(pages[|tokens| - 1])
    {
      var reply := replies[|tokens|];
      tokens := tokens + [nextPageToken];
      if !reply.Answered? {
        raised := true;
        break;
      }
      var page := reply.page;
      AccumulatedSnoc(pages, page, |pages|);
      TokensSnoc(pages, page, tokens);
      PagesOfSnoc(replies, |pages|);
      pages := pages + [page];
      latest := page.items + latest;
      interval := IntervalMillis(page);
      nextPageToken := page.nextPageToken;
      if !Api.Truthy(nextPageToken) || |page.items| < MaxResults {
        break;
      }
    }
    assert pages == PagesOf(replies, Served(|tokens|, raised));
  }

  /** A message passes when `last_timestamp` is empty or older in string order, and the bot did not write it. */
  predicate Accepts(last: string, it: Api.ChatItem, bot: string) {
    (last == "" || LexLess(last, it.publishedAt)) && it.displayName != bot
  }

  /**
   * The backward `for` loop over `items` as written: from the last item back,
   * accept while the item passes against the latest accepted timestamp, and
   * stop at the first that does not.
   */
  function Backward(items: seq<Api.ChatItem>, last: string, bot: string): (acc: seq<Api.ChatItem>)
    ensures |acc| <= |items|
    decreases |items|
  {
    if items == [] then []
    else
      var it := items[|items| - 1];
      if Accepts(last, it, bot) then [it] + Backward(items[..|items| - 1], it.publishedAt, bot) else []
  }

  /** `last_timestamp` after accepting `acc`. */
  function LastAfter(acc: seq<Api.ChatItem>, last: string): string {
    if acc == [] then last else acc[|acc| - 1].publishedAt
  }

  /** The timestamp the `i`-th accepted item was compared with: the one accepted before it, or the start's. */
  function PrevStamp(acc: seq<Api.ChatItem>, i: int, last: string): string
    requires 0 <= i < |acc|
  {
    if i == 0 then last else acc[i - 1].publishedAt
  }

  /** The accepted items are the last ones of the list, in backward order. */
  lemma {:induction false} BackwardSuffix(items: seq<Api.ChatItem>, last: string, bot: string)
    ensures forall i :: 0 <= i < |Backward(items, last, bot)| ==> Backward(items, last, bot)[i] == items[|items| - 1 - i]
    decreases |items|
  {
    if items != [] {
      var n := |items|;
      var it := items[n - 1];
      if Accepts(last, it, bot) {
        var p := items[..n - 1];
        BackwardSuffix(p, it.publishedAt, bot);
        var rest := Backward(p, it.publishedAt, bot);
        var acc := [it] + rest;
        assert Backward(items, last, bot) == acc;
        forall i | 0 <= i < |acc| ensures acc[i] == items[n - 1 - i] {
          if i > 0 {
            assert acc[i] == rest[i - 1] == p[n - 2 - (i - 1)];
          }
        }
      }
    }
  }

  /** Each item of `acc` passed against the timestamp before it. */
  ghost predicate ChainAccepted(acc: seq<Api.ChatItem>, last: string, bot: string) {
    forall i :: 0 <= i < |acc| ==> Accepts(PrevStamp(acc, i, last), acc[i], bot)
  }

  /** Each accepted item passed against the timestamp before it. */
  lemma {:induction false} BackwardChain(items: seq<Api.ChatItem>, last: string, bot: string)
    ensures ChainAccepted(Backward(items, last, bot), last, bot)
    decreases |items|
  {
    if items != [] {
      var n := |items|;
      var it := items[n - 1];
      if Accepts(last, it, bot) {
        var p := items[..n - 1];
        BackwardChain(p, it.publishedAt, bot);
        var rest := Backward(p, it.publishedAt, bot);
        var acc := [it] + rest;
        assert Backward(items, last, bot) == acc;
        forall i | 0 <= i < |acc| ensures Accepts(PrevStamp(acc, i, last), acc[i], bot) {
          if i > 0 {
            assert acc[i] == rest[i - 1];
            assert PrevStamp(acc, i, last) == PrevStamp(rest, i - 1, it.publishedAt);
          }
        }
      }
    }
  }

  /** The item the loop stopped at did not pass against the last timestamp accepted. */
  lemma {:induction false} BackwardStops(items: seq<Api.ChatItem>, last: string, bot: string)
    requires |Backward(items, last, bot)| < |items|
    ensures !Accepts(LastAfter(Backward(items, last, bot), last), items[|items| - 1 - |Backward(items, last, bot)|], bot)
    decreases |items|
  {
    var n := |items|;
    var it := items[n - 1];
    if Accepts(last, it, bot) {
      var p := items[..n - 1];
      BackwardStops(p, it.publishedAt, bot);
      var rest := Backward(p, it.publishedAt, bot);
      var acc := [it] + rest;
      assert Backward(items, last, bot) == acc;
      assert LastAfter(acc, last) == LastAfter(rest, it.publishedAt);
      assert p[n - 1 - 1 - |rest|] == items[n - 1 - |acc|];
    }
  }

  /** Timestamps rise strictly along `acc`. */
  ghost predicate Rising(acc: seq<Api.ChatItem>) {
    forall i, j :: 0 <= i < j < |acc| ==> LexLess(acc[i].publishedAt, acc[j].publishedAt)
  }

  /** Every timestamp of `acc` is after `last`. */
  ghost predicate AllAfter(acc: seq<Api.ChatItem>, last: string) {
    forall i :: 0 <= i < |acc| ==> LexLess(last, acc[i].publishedAt)
  }

  /** No item of `acc` is the bot's. */
  ghost predicate NoneBy(acc: seq<Api.ChatItem>, bot: string) {
    forall i :: 0 <= i < |acc| ==> acc[i].displayName != bot
  }

  /**
   * Accepted timestamps rise strictly in scan order, all above a non-empty
   * starting `last_timestamp`, and none is the bot's (timestamps as the API
   * gives them, never empty).
   */
  lemma {:induction false} BackwardIncreasing(items: seq<Api.ChatItem>, last: string, bot: string)
    requires forall i :: 0 <= i < |items| ==> items[i].publishedAt != ""
    ensures Rising(Backward(items, last, bot))
    ensures last != "" ==> AllAfter(Backward(items, last, bot), last)
    ensures NoneBy(Backward(items, last, bot), bot)
    decreases |items|
  {
    if items != [] {
      var n := |items|;
      var it := items[n - 1];
      if Accepts(last, it, bot) {
        var p := items[..n - 1];
        assert forall i :: 0 <= i < |p| ==> p[i] == items[i];
        var rest := Backward(p, it.publishedAt, bot);
        BackwardIncreasing(p, it.publishedAt, bot);
        var acc := [it] + rest;
        assert Backward(items, last, bot) == acc;
        assert it.publishedAt != "";
        forall i, j | 0 <= i < j < |acc| ensures LexLess(acc[i].publishedAt, acc[j].publishedAt) {
          if i > 0 {
            assert acc[i] == rest[i - 1] && acc[j] == rest[j - 1];
          } else {
            assert acc[j] == rest[j - 1];
          }
        }
        if last != "" {
          forall i | 0 <= i < |acc| ensures LexLess(last, acc[i].publishedAt) {
            if i > 0 {
              assert acc[i] == rest[i - 1];
              LexLessTransitive(last, it.publishedAt, acc[i].publishedAt);
            }
          }
        }
        forall i | 0 <= i < |acc| ensures acc[i].displayName != bot {
          if i > 0 {
            assert acc[i] == rest[i - 1];
          }
        }
      }
    }
  }

  /** `self.all_messages_context[-n:]` for a positive `n`: the last `n` entries, or all of them. */
  function KeepLast<T>(l: seq<T>, n: nat): (r: seq<T>)
    requires n > 0
    ensures |r| == if |l| <= n then |l| else n
    ensures r == l[|l| - |r|..]
  {
    if |l| <= n then l else l[|l| - n..]
  }

  /** `{"role": "user", "content": f"{author}: {message}"}`. */
  function UserEntry(it: Api.ChatItem): ChatEntry {
    ChatEntry(User, it.displayName + ": " + it.displayMessage)
  }

  /** The context after appending the entries of `acc` one at a time, trimming after each append. */
  function Context(ctx: seq<ChatEntry>, acc: seq<Api.ChatItem>): seq<ChatEntry>
    decreases |acc|
  {
    if acc == [] then ctx else KeepLast(Context(ctx, acc[..|acc| - 1]) + [UserEntry(acc[|acc| - 1])], MaxContext)
  }

  /**
   * After any accepted message the context holds at most `MaxContext`
   * entries and ends with that message's entry; it never grows past
   * `MaxContext` from a context within it.
   */
  lemma ContextBounded(ctx: seq<ChatEntry>, acc: seq<Api.ChatItem>)
    ensures acc != [] ==> |Context(ctx, acc)| <= MaxContext
    ensures acc != [] ==> Context(ctx, acc)[|Context(ctx, acc)| - 1] == UserEntry(acc[|acc| - 1])
    ensures |ctx| <= MaxContext ==> |Context(ctx, acc)| <= MaxContext
  {
    if acc != [] {
      var c := Context(ctx, acc[..|acc| - 1]) + [UserEntry(acc[|acc| - 1])];
      assert KeepLast(c, MaxContext)[|KeepLast(c, MaxContext)| - 1] == c[|c| - 1];
    }
  }

  /** Trimming keeps the newest entries: the whole list when short, otherwise exactly its last `n`. */
  lemma KeepLastNewest<T>(l: seq<T>, n: nat, x: T)
    requires n > 0
    ensures KeepLast(l + [x], n)[|KeepLast(l + [x], n)| - 1] == x
    ensures |l| < n ==> KeepLast(l + [x], n) == l + [x]
    ensures |l| >= n ==> KeepLast(l + [x], n) == l[|l| - n + 1..] + [x]
  {
    var r := KeepLast(l + [x], n);
    if |l| >= n {
      assert (l + [x])[|l| + 1 - n..] == l[|l| - n + 1..] + [x];
    }
  }

  /** The `(author, message)` pairs queued for `acc`. */
  function Pairs(acc: seq<Api.ChatItem>): (ps: seq<(string, string)>)
    ensures |ps| == |acc|
    decreases |acc|
  {
    if acc == [] then [] else Pairs(acc[..|acc| - 1]) + [(acc[|acc| - 1].displayName, acc[|acc| - 1].displayMessage)]
  }

  /**
   * The scan as evidently intended by its comment ("as soon as we hit an old
   * message, we can break"): compare each item with the `last_timestamp` the
   * scan started from.
   */
  function BackwardIntended(items: seq<Api.ChatItem>, last: string, bot: string): (acc: seq<Api.ChatItem>)
    ensures |acc| <= |items|
    decreases |items|
  {
    if items == [] then []
    else
      var it := items[|items| - 1];
      if Accepts(last, it, bot) then [it] + BackwardIntended(items[..|items| - 1], last, bot) else []
  }

  /** The items are in strictly rising timestamp order: oldest first. */
  ghost predicate OldestFirst(items: seq<Api.ChatItem>) {
    forall i, j :: 0 <= i < j < |items| ==> LexLess(items[i].publishedAt, items[j].publishedAt)
  }

  /**
   * As written, a list in oldest-first order yields at most one message per
   * cycle: the item before the newest is older than it, so the scan stops.
   */
  lemma OldestFirstAcceptsAtMostOne(items: seq<Api.ChatItem>, last: string, bot: string)
    requires OldestFirst(items)
    ensures |Backward(items, last, bot)| <= 1
  {
    var n := |items|;
    if n >= 2 && Accepts(last, items[n - 1], bot) {
      var p := items[..n - 1];
      assert p[|p| - 1] == items[n - 2];
      LexLessAsymmetric(items[n - 2].publishedAt, items[n - 1].publishedAt);
      assert !Accepts(items[n - 1].publishedAt, p[|p| - 1], bot);
    }
  }

  /** Two new messages in oldest-first order: only the newer one is queued. */
  lemma TwoNewMessagesOneQueued(a: Api.ChatItem, b: Api.ChatItem, last: string, bot: string)
    requires LexLess(last, a.publishedAt) && LexLess(a.publishedAt, b.publishedAt)
    requires a.displayName != bot && b.displayName != bot
    ensures Backward([a, b], last, bot) == [b]
    ensures BackwardIntended([a, b], last, bot) == [b, a]
  {
    LexLessAsymmetric(a.publishedAt, b.publishedAt);
    LexLessTransitive(last, a.publishedAt, b.publishedAt);
    assert [a, b][..1] == [a];
    assert [a][..0] == [];
  }

  /**
   * The intended scan of an oldest-first list with no bot messages queues
   * every item newer than the starting `last_timestamp`, newest first.
   */
  lemma {:induction false} IntendedTakesAllNewer(items: seq<Api.ChatItem>, last: string, bot: string)
    requires OldestFirst(items) && last != ""
    requires forall i :: 0 <= i < |items| ==> items[i].displayName != bot
    ensures var acc := BackwardIntended(items, last, bot);
      && (forall i :: 0 <= i < |acc| ==> acc[i] == items[|items| - 1 - i])
      && (forall j :: 0 <= j < |items| ==> (LexLess(last, items[j].publishedAt) <==> |items| - 1 - j < |acc|))
    decreases |items|
  {
    if items != [] {
      var n := |items|;
      var p := items[..n - 1];
      assert OldestFirst(p) by {
        forall i, j | 0 <= i < j < |p| ensures LexLess(p[i].publishedAt, p[j].publishedAt) {
          assert p[i] == items[i] && p[j] == items[j];
        }
      }
      IntendedTakesAllNewer(p, last, bot);
      var acc := BackwardIntended(items, last, bot);
      var it := items[n - 1];
      if Accepts(last, it, bot) {
        var rest := BackwardIntended(p, last, bot);
        forall i | 0 <= i < |acc| ensures acc[i] == items[n - 1 - i] {
          if i > 0 {
            assert acc[i] == rest[i - 1] == p[n - 2 - (i - 1)];
          }
        }
        forall j | 0 <= j < n ensures LexLess(last, items[j].publishedAt) <==> n - 1 - j < |acc| {
          if j < n - 1 {
            assert p[j] == items[j];
          }
        }
      } else {
        forall j | 0 <= j < n ensures !LexLess(last, items[j].publishedAt) {
          if j < n - 1 && LexLess(last, items[j].publishedAt) {
            LexLessTransitive(last, items[j].publishedAt, it.publishedAt);
          }
        }
      }
    }
  }

  /** One pass of the backward loop at position `j - 1`. */
  lemma ScanStep(latest: seq<Api.ChatItem>, j: int, last: string, bot: string)
    requires 0 < j <= |latest|
    ensures Backward(latest[..j], last, bot)
         == if Accepts(last, latest[j - 1], bot) then [latest[j - 1]] + Backward(latest[..j - 1], latest[j - 1].publishedAt, bot) else []
  {
    assert latest[..j][..j - 1] == latest[..j - 1];
  }

  /** An accepted item at position `j - 1` moves from the rest of the scan to the accepted run `acc`. */
  lemma ScanAccept(acc: seq<Api.ChatItem>, latest: seq<Api.ChatItem>, j: int, last: string, bot: string)
    requires 0 < j <= |latest| && Accepts(last, latest[j - 1], bot)
    ensures acc + Backward(latest[..j], last, bot)
         == (acc + [latest[j - 1]]) + Backward(latest[..j - 1], latest[j - 1].publishedAt, bot)
  {
    ScanStep(latest, j, last, bot);
  }

  /** A refused item at position `j - 1` ends the scan with the accepted run `acc`. */
  lemma ScanStop(acc: seq<Api.ChatItem>, latest: seq<Api.ChatItem>, j: int, last: string, bot: string)
    requires 0 < j <= |latest| && !Accepts(last, latest[j - 1], bot)
    ensures acc + Backward(latest[..j], last, bot) == acc
  {
    ScanStep(latest, j, last, bot);
  }

  /** Queueing one more accepted item extends the queued pairs by its author and text. */
  lemma PairsSnoc(q: seq<(string, string)>, acc: seq<Api.ChatItem>, it: Api.ChatItem)
    ensures (q + Pairs(acc)) + [(it.displayName, it.displayMessage)] == q + Pairs(acc + [it])
  {
    assert (acc + [it])[..|acc|] == acc;
  }

  /** Accepting one more item appends its entry to the context and keeps the last `MaxContext`. */
  lemma ContextSnoc(ctx: seq<ChatEntry>, acc: seq<Api.ChatItem>, it: Api.ChatItem)
    ensures KeepLast(Context(ctx, acc) + [UserEntry(it)], MaxContext) == Context(ctx, acc + [it])
  {
    assert (acc + [it])[..|acc|] == acc;
  }

  /** The bot's rolling context and the queue its fetch thread fills. */
  class LiveStreamChatBot {
    const botDisplayName: string
    const liveChatId: string
    const messageQueue: Queue<(string, string)>
    var allMessagesContext: seq<ChatEntry>
    var lastTimestamp: string

    /**
     * `__init__` once the client found a live chat: `now` is the start-up
     * instant rendered as `isoformat() + 'Z'`.
     */
    constructor (botDisplayName: string, now: string, liveChatId: string)
      requires liveChatId != ""
      ensures this.botDisplayName == botDisplayName && this.liveChatId == liveChatId
      ensures lastTimestamp == now && allMessagesContext == []
      ensures fresh(messageQueue) && messageQueue.items == []
    {
      this.botDisplayName := botDisplayName;
      this.liveChatId := liveChatId;
      messageQueue := new Queue();
      allMessagesContext := [];
      lastTimestamp := now;
    }

    /**
     * `LiveStreamChatBot(...)`: when `get_live_chat_id` finds no live chat,
     * `__init__` returns `False`, which Python refuses with `TypeError`, so
     * no bot comes out.
     */
    static method Start(botDisplayName: string, now: string, liveChatId: Option<string>) returns (bot: Option<LiveStreamChatBot>)
      ensures bot.Some? <==> Api.Truthy(liveChatId)
      ensures bot.Some? ==> fresh(bot.value) && fresh(bot.value.messageQueue)
      ensures bot.Some? ==> bot.value.botDisplayName == botDisplayName && bot.value.liveChatId == liveChatId.value
      ensures bot.Some? ==> bot.value.lastTimestamp == now && bot.value.allMessagesContext == []
      ensures bot.Some? ==> bot.value.messageQueue.items == []
    {
      if !Api.Truthy(liveChatId) {
        return None;
      }
      var b := new LiveStreamChatBot(botDisplayName, now, liveChatId.value);
      bot := Some(b);
    }

    /** The backward loop of `fetch_messages` over the accumulated items. */
    method ProcessLatest(latest: seq<Api.ChatItem>)
      modifies this, messageQueue
      ensures var acc := Backward(latest, old(lastTimestamp), botDisplayName);
        && messageQueue.items == old(messageQueue.items) + Pairs(acc)
        && lastTimestamp == LastAfter(acc, old(lastTimestamp))
        && allMessagesContext == Context(old(allMessagesContext), acc)
    {
      ghost var last0, ctx0, q0 := lastTimestamp, allMessagesContext, messageQueue.items;
      ghost var acc: seq<Api.ChatItem> := [];
      var j := |latest|;
      assert latest[..j] == latest;
      while j > 0
        invariant 0 <= j <= |latest|
        invariant Backward(latest, last0, botDisplayName) == acc + Backward(latest[..j], lastTimestamp, botDisplayName)
        invariant lastTimestamp == LastAfter(acc, last0)
        invariant allMessagesContext == Context(ctx0, acc)
        invariant messageQueue.items == q0 + Pairs(acc)
      {
        var it := latest[j - 1];
        if Accepts(lastTimestamp, it, botDisplayName) {
          ScanAccept(acc, latest, j, lastTimestamp, botDisplayName);
          messageQueue.Put((it.displayName, it.displayMessage));
          allMessagesContext := KeepLast(allMessagesContext + [UserEntry(it)], MaxContext);
          lastTimestamp := it.publishedAt;
          PairsSnoc(q0, acc, it);
          ContextSnoc(ctx0, acc, it);
          acc := acc + [it];
          j := j - 1;
        } else {
          ScanStop(acc, latest, j, lastTimestamp, botDisplayName);
          break;
        }
      }
      assert acc + [] == acc;
    }

    /**
     * One pass of the outer loop of `fetch_messages`: paginate, then the
     * backward loop. Returns the interval to sleep before the next pass, and
     * whether a request raised: then the backward loop never runs, the state
     * stays as it was and the fetch thread is over.
     */
    method FetchCycle(replies: seq<Reply>, interval0: int) returns (tokens: seq<Option<string>>, interval: int, raised: bool)
      modifies this, messageQueue
      ensures |tokens| <= |replies|
      ensures raised ==> |tokens| > 0 && !replies[|tokens| - 1].Answered?
      ensures AnsweredUpTo(replies, Served(|tokens|, raised))
      ensures var pages := PagesOf(replies, Served(|tokens|, raised));
        forall k :: 0 <= k < |tokens| ==> tokens[k] == TokenFor(pages, k)
      ensures var pages := PagesOf(replies, Served(|tokens|, raised));
        forall k :: 0 <= k < |tokens| - 1 ==> !IsLastPage(pages[k])
      ensures !raised ==> |tokens| == |replies| || (|tokens| > 0 && IsLastPage(PagesOf(replies, |tokens|)[|tokens| - 1]))
      ensures raised ==> messageQueue.items == old(messageQueue.items)
      ensures raised ==> lastTimestamp == old(lastTimestamp) && allMessagesContext == old(allMessagesContext)
      ensures !raised ==> var pages := PagesOf(replies, |tokens|);
        && interval == (if |tokens| == 0 then interval0 else IntervalMillis(pages[|tokens| - 1]))
        && var acc := Backward(Accumulated(pages, |tokens|), old(lastTimestamp), botDisplayName);
        && messageQueue.items == old(messageQueue.items) + Pairs(acc)
        && lastTimestamp == LastAfter(acc, old(lastTimestamp))
        && allMessagesContext == Context(old(allMessagesContext), acc)
    {
      var latest;
      tokens, latest, interval, raised := Paginate(replies, interval0);
      if !raised {
        ProcessLatest(latest);
      }
    }

    /** The context update of `process_messages` after the bot answered `response`. */
    method RecordResponse(response: string)
      modifies this
      ensures allMessagesContext == KeepLast(old(allMessagesContext) + [ChatEntry(System, response)], MaxContext)
      ensures lastTimestamp == old(lastTimestamp)
    {
      allMessagesContext := KeepLast(allMessagesContext + [ChatEntry(System, response)], 100);
    }
  }
}
