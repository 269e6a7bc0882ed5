/**
 * The YouTube Data API poller: one page of live-chat messages per call, the
 * chat id looked up lazily, the page token carried from call to call, and
 * messages deduplicated by their platform id. The API client's answers are
 * inputs.
 */
module ApiChat {
  import opened Wrappers
  import opened Records
  import opened Queues

  /** `self.MAX_ERRORS` of the poller. */
  const MaxErrors := 5

  /** `max_results` of every page request. */
  const MaxResults := 100

  /** One entry of `response['items']`: its `id`, author's `displayName`, `publishedAt` and `displayMessage`. */
  datatype ChatItem = ChatItem(id: string, displayName: string, publishedAt: string, displayMessage: string)

  /** What `get_live_chat_id()` gives: a value (possibly `None`), or an exception. */
  datatype IdLookup = IdAnswer(value: Option<string>) | IdRaised

  /**
   * What `get_live_chat_messages(...)` gives: a response whose `nextPageToken`
   * and `items` keys may be missing, an `HttpError`, or any other exception.
   */
  datatype Reply =
    | Response(nextPageToken: Option<string>, items: Option<seq<ChatItem>>)
    | HttpError
    | OtherError

  /** The client's answers during one call of `fetch_messages`. */
  datatype Poll = Poll(lookup: IdLookup, reply: Reply)

  /** The arguments of a page request. */
  datatype Request = Request(liveChatId: Option<string>, maxResults: int, pageToken: Option<string>)

  /** `live_chat_id`, `next_page_token`, `seen_messages` and `error_count`. */
  datatype ApiState = ApiState(liveChatId: Option<string>, nextPageToken: Option<string>, seen: set<string>, errorCount: nat)

  const Initial := ApiState(None, None, {}, 0)

  /** Python truthiness of `live_chat_id`: neither `None` nor "". */
  predicate Truthy(id: Option<string>) {
    id.Some? && id.value != ""
  }

  /** `response.get('items', [])`. */
  function ItemsOf(r: Reply): seq<ChatItem>
    requires r.Response?
  {
    r.items.GetOr([])
  }

  /** The record queued for an item, under its platform id. */
  function EmittedOf(it: ChatItem): Emitted {
    Emitted(it.id, MakeRecord(it.displayName, it.publishedAt, it.displayMessage))
  }

  /** The seen set after a page's items, and what they queued. */
  datatype FetchResult = FetchResult(seen: set<string>, emitted: seq<Emitted>)

  /**
   * The `for` loop of `fetch_messages` over `items`, written from the last
   * item back: an item is queued and its id recorded when the id is new and
   * the author is not the bot; a bot item is skipped without recording.
   */
  function Fetched(items: seq<ChatItem>, seen: set<string>, bot: string): (r: FetchResult)
    ensures seen <= r.seen
    decreases |items|
  {
    if items == [] then FetchResult(seen, [])
    else
      var p := Fetched(items[..|items| - 1], seen, bot);
      var it := items[|items| - 1];
      if it.id !in p.seen && it.displayName != bot then FetchResult(p.seen + {it.id}, p.emitted + [EmittedOf(it)])
      else p
  }

  /**
   * The ids recorded are exactly the ids queued: none was seen before, and
   * none is queued twice, a duplicate within the page included.
   */
  lemma {:induction false} FetchedNewIds(items: seq<ChatItem>, seen: set<string>, bot: string)
    ensures Fetched(items, seen, bot).seen == seen + IdSet(Fetched(items, seen, bot).emitted)
    ensures forall i :: 0 <= i < |Fetched(items, seen, bot).emitted| ==> Fetched(items, seen, bot).emitted[i].id !in seen
    ensures DistinctIds(Fetched(items, seen, bot).emitted)
    decreases |items|
  {
    if items != [] {
      var p := Fetched(items[..|items| - 1], seen, bot);
      FetchedNewIds(items[..|items| - 1], seen, bot);
      var it := items[|items| - 1];
      if it.id !in p.seen && it.displayName != bot {
        var e := p.emitted + [EmittedOf(it)];
        IdSetAppend(p.emitted, [EmittedOf(it)]);
        assert [EmittedOf(it)][0].id == it.id;
        assert IdSet([EmittedOf(it)]) == {it.id};
        DistinctAppend(p.emitted, [EmittedOf(it)]);
        forall i | 0 <= i < |e| ensures e[i].id !in seen {
          if i < |p.emitted| {
            assert e[i] == p.emitted[i];
          }
        }
      }
    }
  }

  /** Every queued record is that of an item of the page whose author is not the bot. */
  lemma {:induction false} FetchedSound(items: seq<ChatItem>, seen: set<string>, bot: string)
    ensures forall i :: 0 <= i < |Fetched(items, seen, bot).emitted| ==>
      exists j :: 0 <= j < |items| && items[j].displayName != bot && Fetched(items, seen, bot).emitted[i] == EmittedOf(items[j])
    decreases |items|
  {
    if items != [] {
      var n := |items|;
      var p := Fetched(items[..n - 1], seen, bot);
      FetchedSound(items[..n - 1], seen, bot);
      var r := Fetched(items, seen, bot);
      forall i | 0 <= i < |r.emitted|
        ensures exists j :: 0 <= j < |items| && items[j].displayName != bot && Fetched(items, seen, bot).emitted[i] == EmittedOf(items[j])
      {
        if i < |p.emitted| {
          assert r.emitted[i] == p.emitted[i];
          var j :| 0 <= j < n - 1 && items[..n - 1][j].displayName != bot && p.emitted[i] == EmittedOf(items[..n - 1][j]);
          assert items[..n - 1][j] == items[j];
          assert 0 <= j < n && items[j].displayName != bot && r.emitted[i] == EmittedOf(items[j]);
        } else {
          var it := items[n - 1];
          assert it.id !in p.seen && it.displayName != bot;
          assert r.emitted[i] == EmittedOf(items[n - 1]);
          assert 0 <= n - 1 < n && items[n - 1].displayName != bot && r.emitted[i] == EmittedOf(items[n - 1]);
        }
      }
    } else {
      assert Fetched(items, seen, bot).emitted == [];
    }
  }

  /** After the page, the id of every item not written by the bot is recorded. */
  lemma {:induction false} FetchedCovers(items: seq<ChatItem>, seen: set<string>, bot: string)
    ensures forall j :: 0 <= j < |items| && items[j].displayName != bot ==> items[j].id in Fetched(items, seen, bot).seen
    decreases |items|
  {
    if items != [] {
      var n := |items|;
      FetchedCovers(items[..n - 1], seen, bot);
      forall j | 0 <= j < n - 1 && items[j].displayName != bot ensures items[j].id in Fetched(items, seen, bot).seen {
        assert items[..n - 1][j] == items[j];
      }
    }
  }

  /** A bot message is never recorded: an id only bot items carry stays unseen. */
  lemma BotNotMarked(items: seq<ChatItem>, seen: set<string>, bot: string, x: string)
    requires x !in seen
    requires forall j :: 0 <= j < |items| && items[j].id == x ==> items[j].displayName == bot
    ensures x !in Fetched(items, seen, bot).seen
  {
    var r := Fetched(items, seen, bot);
    FetchedNewIds(items, seen, bot);
    FetchedSound(items, seen, bot);
    forall i | 0 <= i < |r.emitted| ensures r.emitted[i].id != x {
      assert exists j :: 0 <= j < |items| && items[j].displayName != bot && Fetched(items, seen, bot).emitted[i] == EmittedOf(items[j]);
      var j :| 0 <= j < |items| && items[j].displayName != bot && r.emitted[i] == EmittedOf(items[j]);
    }
  }

  /** Items are handled in response order: a page split in two is the first part and then the second. */
  lemma {:induction false} FetchedAppend(a: seq<ChatItem>, b: seq<ChatItem>, seen: set<string>, bot: string)
    ensures var ra := Fetched(a, seen, bot);
      var rb := Fetched(b, ra.seen, bot);
      Fetched(a + b, seen, bot) == FetchResult(rb.seen, ra.emitted + rb.emitted)
    decreases |b|
  {
    if b == [] {
      assert a + b == a;
    } else {
      var n := |b|;
      assert (a + b)[..|a + b| - 1] == a + b[..n - 1];
      assert (a + b)[|a + b| - 1] == b[n - 1];
      FetchedAppend(a, b[..n - 1], seen, bot);
      var ra := Fetched(a, seen, bot);
      var rb := Fetched(b[..n - 1], ra.seen, bot);
      assert ra.emitted + (rb.emitted + [EmittedOf(b[n - 1])]) == (ra.emitted + rb.emitted) + [EmittedOf(b[n - 1])];
    }
  }

  /** A page whose non-bot ids are all seen queues nothing and records nothing. */
  lemma {:induction false} FetchedKnown(items: seq<ChatItem>, seen: set<string>, bot: string)
    requires forall j :: 0 <= j < |items| && items[j].displayName != bot ==> items[j].id in seen
    ensures Fetched(items, seen, bot) == FetchResult(seen, [])
    decreases |items|
  {
    if items != [] {
      var n := |items|;
      assert forall j :: 0 <= j < n - 1 ==> items[..n - 1][j] == items[j];
      FetchedKnown(items[..n - 1], seen, bot);
    }
  }

  /** The same page fetched twice queues nothing the second time. */
  lemma RefetchEmitsNothing(items: seq<ChatItem>, seen: set<string>, bot: string)
    ensures Fetched(items, Fetched(items, seen, bot).seen, bot) == FetchResult(Fetched(items, seen, bot).seen, [])
  {
    FetchedCovers(items, seen, bot);
    FetchedKnown(items, Fetched(items, seen, bot).seen, bot);
  }

  /** One call of `fetch_messages`: the new state, what it queued, the request it made, and whether it raised. */
  datatype FetchOutcome = FetchOutcome(state: ApiState, emitted: seq<Emitted>, request: Option<Request>, raised: bool)

  /**
   * `fetch_messages()`: look the chat id up when it is not set (a lookup that
   * raises leaves the method); request the page after `next_page_token`; on a
   * response take its token (`None` when missing), zero `error_count` and
   * handle the items; on an `HttpError` add one to `error_count`; any other
   * exception leaves the method.
   */
  function Fetch(s: ApiState, p: Poll, bot: string): (o: FetchOutcome)
    ensures o.raised <==> (!Truthy(s.liveChatId) && p.lookup.IdRaised?) || p.reply.OtherError?
    ensures o.raised ==> o.emitted == [] && o.state.seen == s.seen && o.state.errorCount == s.errorCount
    ensures !Truthy(s.liveChatId) && p.lookup.IdRaised? ==> o == FetchOutcome(s, [], None, true)
    ensures p.reply.OtherError? ==> o.state.nextPageToken == s.nextPageToken
    ensures o.request.Some? ==> o.request.value.pageToken == s.nextPageToken && o.request.value.maxResults == MaxResults
    ensures Truthy(s.liveChatId) ==> o.state.liveChatId == s.liveChatId && o.request == Some(Request(s.liveChatId, MaxResults, s.nextPageToken))
    ensures !Truthy(s.liveChatId) && p.lookup.IdAnswer? ==> o.state.liveChatId == p.lookup.value && o.request.Some?
    ensures p.reply.HttpError? ==> o.emitted == [] && o.state.nextPageToken == s.nextPageToken && o.state.seen == s.seen
    ensures p.reply.HttpError? && o.request.Some? ==> o.state.errorCount == s.errorCount + 1 && !o.raised
    ensures p.reply.Response? && o.request.Some? ==>
      && o.state.nextPageToken == p.reply.nextPageToken && o.state.errorCount == 0 && !o.raised
      && o.state.seen == Fetched(ItemsOf(p.reply), s.seen, bot).seen && o.emitted == Fetched(ItemsOf(p.reply), s.seen, bot).emitted
  {
    if !Truthy(s.liveChatId) && p.lookup.IdRaised? then FetchOutcome(s, [], None, true)
    else
      var id := if Truthy(s.liveChatId) then s.liveChatId else p.lookup.value;
      var s1 := s.(liveChatId := id);
      var req := Some(Request(id, MaxResults, s.nextPageToken));
      match p.reply
      case HttpError => FetchOutcome(s1.(errorCount := s.errorCount + 1), [], req, false)
      case OtherError => FetchOutcome(s1, [], req, true)
      case Response(token, _) =>
        var f := Fetched(ItemsOf(p.reply), s.seen, bot);
        FetchOutcome(s1.(nextPageToken := token, errorCount := 0, seen := f.seen), f.emitted, req, false)
  }

  /** One pass of the `while` loop of `run_chat`: fetch, and count an exception that left `fetch_messages`. */
  function PollStep(s: ApiState, p: Poll, bot: string): FetchResultState {
    var o := Fetch(s, p, bot);
    FetchResultState(if o.raised then o.state.(errorCount := o.state.errorCount + 1) else o.state, o.emitted)
  }

  /** The state after some polls and everything they queued, in order. */
  datatype FetchResultState = FetchResultState(state: ApiState, emitted: seq<Emitted>)

  /** The first `n` polls of `ps` in turn. */
  function Polls(s: ApiState, ps: seq<Poll>, n: nat, bot: string): (r: FetchResultState)
    requires n <= |ps|
  {
    if n == 0 then FetchResultState(s, [])
    else
      var r := Polls(s, ps, n - 1, bot);
      var q := PollStep(r.state, ps[n - 1], bot);
      FetchResultState(q.state, r.emitted + q.emitted)
  }

  /** Each of the first `n` polls of `ps` started with the count below `MaxErrors`. */
  ghost predicate BelowLimitThroughout(s: ApiState, ps: seq<Poll>, n: nat, bot: string)
    requires n <= |ps|
  {
    n == 0 || (BelowLimitThroughout(s, ps, n - 1, bot) && Polls(s, ps, n - 1, bot).state.errorCount < MaxErrors)
  }

  /** Read position by position: the loop condition held before every poll made. */
  lemma {:induction false} BelowLimitAt(s: ApiState, ps: seq<Poll>, n: nat, bot: string)
    requires n <= |ps|
    ensures BelowLimitThroughout(s, ps, n, bot) <==>
      forall k :: 0 <= k < n ==> Polls(s, ps, k, bot).state.errorCount < MaxErrors
    decreases n
  {
    if n > 0 {
      BelowLimitAt(s, ps, n - 1, bot);
      if BelowLimitThroughout(s, ps, n, bot) {
        forall k | 0 <= k < n ensures Polls(s, ps, k, bot).state.errorCount < MaxErrors {
        }
      } else if !BelowLimitThroughout(s, ps, n - 1, bot) {
        var k :| 0 <= k < n - 1 && Polls(s, ps, k, bot).state.errorCount >= MaxErrors;
      } else {
        assert Polls(s, ps, n - 1, bot).state.errorCount >= MaxErrors;
      }
    }
  }

  /** A poll whose page request fails, in whatever way, adds one to the count and changes no token or seen id. */
  lemma FailedPollCounts(s: ApiState, p: Poll, bot: string)
    requires !p.reply.Response?
    ensures PollStep(s, p, bot).state.errorCount == s.errorCount + 1
    ensures PollStep(s, p, bot).state.nextPageToken == s.nextPageToken
    ensures PollStep(s, p, bot).state.seen == s.seen && PollStep(s, p, bot).emitted == []
  {
  }

  /** A poll that gets a response zeroes the count, whatever it was. */
  lemma ResponseResets(s: ApiState, p: Poll, bot: string)
    requires p.reply.Response? && (Truthy(s.liveChatId) || p.lookup.IdAnswer?)
    ensures PollStep(s, p, bot).state.errorCount == 0
    ensures PollStep(s, p, bot).state.nextPageToken == p.reply.nextPageToken
  {
  }

  /** `m` failed polls in a row add `m` to the count. */
  lemma {:induction false} FailuresAdd(s: ApiState, ps: seq<Poll>, k: nat, m: nat, bot: string)
    requires k + m <= |ps|
    requires forall i :: k <= i < k + m ==> !ps[i].reply.Response?
    ensures Polls(s, ps, k + m, bot).state.errorCount == Polls(s, ps, k, bot).state.errorCount + m
    decreases m
  {
    if m > 0 {
      FailuresAdd(s, ps, k, m - 1, bot);
      FailedPollCounts(Polls(s, ps, k + m - 1, bot).state, ps[k + m - 1], bot);
    }
  }

  /**
   * From a zero count, five failed polls in a row bring it to `MaxErrors`
   * and no earlier poll does, so `run_chat` stops after exactly five.
   */
  lemma FiveFailuresStop(s: ApiState, ps: seq<Poll>, bot: string)
    requires s.errorCount == 0 && |ps| >= MaxErrors
    requires forall i :: 0 <= i < MaxErrors ==> !ps[i].reply.Response?
    ensures forall k :: 0 <= k < MaxErrors ==> Polls(s, ps, k, bot).state.errorCount == k < MaxErrors
    ensures Polls(s, ps, MaxErrors, bot).state.errorCount == MaxErrors
  {
    assert Polls(s, ps, 0, bot).state == s;
    forall k | 0 <= k < MaxErrors ensures Polls(s, ps, k, bot).state.errorCount == k {
      FailuresAdd(s, ps, 0, k, bot);
    }
    FailuresAdd(s, ps, 0, MaxErrors, bot);
  }

  /**
   * Across a whole run the seen set is the start's plus the ids queued, and no
   * message id is queued twice, nor one seen at the start.
   */
  lemma {:induction false} PollsNeverRepeat(s: ApiState, ps: seq<Poll>, n: nat, bot: string)
    requires n <= |ps|
    ensures Polls(s, ps, n, bot).state.seen == s.seen + IdSet(Polls(s, ps, n, bot).emitted)
    ensures forall i :: 0 <= i < |Polls(s, ps, n, bot).emitted| ==> Polls(s, ps, n, bot).emitted[i].id !in s.seen
    ensures DistinctIds(Polls(s, ps, n, bot).emitted)
    decreases n
  {
    if n > 0 {
      PollsNeverRepeat(s, ps, n - 1, bot);
      var r := Polls(s, ps, n - 1, bot);
      var q := PollStep(r.state, ps[n - 1], bot);
      PollStepNewIds(r.state, ps[n - 1], bot);
      var e := r.emitted + q.emitted;
      assert Polls(s, ps, n, bot) == FetchResultState(q.state, e);
      IdSetAppend(r.emitted, q.emitted);
      DistinctAppend(r.emitted, q.emitted);
      forall i | 0 <= i < |e| ensures e[i].id !in s.seen {
        if i >= |r.emitted| {
          assert e[i] == q.emitted[i - |r.emitted|];
        } else {
          assert e[i] == r.emitted[i];
        }
      }
    }
  }

  /** One poll records exactly the ids it queues, each new and none twice. */
  lemma PollStepNewIds(s: ApiState, p: Poll, bot: string)
    ensures PollStep(s, p, bot).state.seen == s.seen + IdSet(PollStep(s, p, bot).emitted)
    ensures forall i :: 0 <= i < |PollStep(s, p, bot).emitted| ==> PollStep(s, p, bot).emitted[i].id !in s.seen
    ensures DistinctIds(PollStep(s, p, bot).emitted)
  {
    var o := Fetch(s, p, bot);
    if p.reply.Response? && o.request.Some? {
      FetchedNewIds(ItemsOf(p.reply), s.seen, bot);
    } else {
      assert o.emitted == [] && o.state.seen == s.seen;
      assert IdSet(o.emitted) == {};
    }
  }

  /** `YouTubeChat`: its chat id, page token, seen ids, error count and queue. */
  class YouTubeChat {
    const botDisplayName: string
    const messageQueue: Queue<Record>
    var liveChatId: Option<string>
    var nextPageToken: Option<string>
    var seenMessages: set<string>
    var errorCount: nat
    var stopEvent: bool

    constructor (botDisplayName: string)
      ensures this.botDisplayName == botDisplayName && State() == Initial && !stopEvent
      ensures fresh(messageQueue) && messageQueue.items == []
    {
      this.botDisplayName := botDisplayName;
      liveChatId := None;
      nextPageToken := None;
      seenMessages := {};
      messageQueue := new Queue();
      errorCount := 0;
      stopEvent := false;
    }

    function State(): ApiState
      reads this
    {
      ApiState(liveChatId, nextPageToken, seenMessages, errorCount)
    }

    /** `fetch_messages()` with the client answering `p`; `raised` says an exception left the method. */
    method FetchMessages(p: Poll) returns (request: Option<Request>, raised: bool)
      modifies this, messageQueue
      ensures var o := Fetch(old(State()), p, botDisplayName);
        && State() == o.state && request == o.request && raised == o.raised
        && messageQueue.items == old(messageQueue.items) + RecordsOf(o.emitted)
      ensures stopEvent == old(stopEvent)
    {
      if !Truthy(liveChatId) {
        match p.lookup {
          case IdRaised =>
            assert [] + [] == RecordsOf([]);
            return None, true;
          case IdAnswer(v) =>
            liveChatId := v;
        }
      }
      request := Some(Request(liveChatId, MaxResults, nextPageToken));
      raised := false;
      match p.reply {
        case HttpError =>
          errorCount := errorCount + 1;
        case OtherError =>
          raised := true;
        case Response(token, _) =>
          nextPageToken := token;
          errorCount := 0;
          var items := ItemsOf(p.reply);
          QueueNewItems(items);
      }
    }

    /** The `for item in response['items']` loop of `fetch_messages()`. */
    method QueueNewItems(items: seq<ChatItem>)
      modifies this`seenMessages, messageQueue
      ensures var f := Fetched(items, old(seenMessages), botDisplayName);
        seenMessages == f.seen && messageQueue.items == old(messageQueue.items) + RecordsOf(f.emitted)
    {
      ghost var seen0, q0 := seenMessages, messageQueue.items;
      ghost var emitted: seq<Emitted> := [];
      var i := 0;
      while i < |items|
        invariant 0 <= i <= |items|
        invariant Fetched(items[..i], seen0, botDisplayName) == FetchResult(seenMessages, emitted)
        invariant messageQueue.items == q0 + RecordsOf(emitted)
      {
        var it := items[i];
        assert items[..i + 1][..i] == items[..i] && items[..i + 1][i] == it;
        if it.id !in seenMessages {
          if it.displayName != botDisplayName {
            messageQueue.Put(MakeRecord(it.displayName, it.publishedAt, it.displayMessage));
            QueueEmittedAppend(q0, emitted, [EmittedOf(it)]);
            seenMessages := seenMessages + {it.id};
            emitted := emitted + [EmittedOf(it)];
          }
        }
        i := i + 1;
      }
      assert items[..i] == items;
    }

    /** One pass of the `while` loop of `run_chat()`: fetch, and count an exception that left `fetch_messages`. */
    method PollOnce(p: Poll)
      modifies this, messageQueue
      ensures var q := PollStep(old(State()), p, botDisplayName);
        State() == q.state && messageQueue.items == old(messageQueue.items) + RecordsOf(q.emitted)
      ensures stopEvent == old(stopEvent)
    {
      var _, raised := FetchMessages(p);
      if raised {
        errorCount := errorCount + 1;
      }
    }

    /**
     * `run_chat()` over the client's answers `ps`, one `Poll` per pass: loop
     * while `stop_event` is clear and the count is below `MaxErrors`, counting
     * an exception that leaves `fetch_messages`; then set `stop_event` if the
     * count reached the limit. The run also ends when `ps` runs out.
     */
    method RunChat(ps: seq<Poll>) returns (n: nat)
      modifies this, messageQueue
      ensures n <= |ps| && (old(stopEvent) ==> n == 0)
      ensures var r := Polls(old(State()), ps, n, botDisplayName);
        State() == r.state && messageQueue.items == old(messageQueue.items) + RecordsOf(r.emitted)
      ensures BelowLimitThroughout(old(State()), ps, n, botDisplayName)
      ensures n == |ps| || old(stopEvent) || errorCount >= MaxErrors
      ensures stopEvent == (old(stopEvent) || errorCount >= MaxErrors)
    {
      ghost var s0, q0 := State(), messageQueue.items;
      n := 0;
      while !stopEvent && errorCount < MaxErrors && n < |ps|
        invariant n <= |ps| && (old(stopEvent) ==> n == 0)
        invariant var r := Polls(s0, ps, n, botDisplayName);
          State() == r.state && messageQueue.items == q0 + RecordsOf(r.emitted)
        invariant BelowLimitThroughout(s0, ps, n, botDisplayName)
        invariant stopEvent == old(stopEvent)
        decreases |ps| - n
      {
        ghost var r := Polls(s0, ps, n, botDisplayName);
        assert r.state.errorCount < MaxErrors;
        ghost var q := PollStep(r.state, ps[n], botDisplayName);
        PollOnce(ps[n]);
        QueueEmittedAppend(q0, r.emitted, q.emitted);
        assert Polls(s0, ps, n + 1, botDisplayName) == FetchResultState(q.state, r.emitted + q.emitted);
        n := n + 1;
      }
      if errorCount >= MaxErrors {
        stopEvent := true;
      }
    }
  }
}
