/**
 * The older browser scraper at the root of the repository: the same page and
 * the same error counter as the chat fetchers' scraper, but it reads the
 * containers in DOM order, skips seen ids without stopping, marks an id seen
 * only once all three fields are read, has no launch-time filter, never
 * moves a timestamp to the previous day, and counts every failed poll.
 */
module LegacyScraper {
  import opened Wrappers
  import opened PyStrings
  import opened Clock
  import opened Records
  import opened Queues
  import opened Dom
  import opened Escalation
  import Current = ChatScraper

  /**
   * `convert_timestamp(ts)` of this version at wall clock `now`: today's UTC
   * date at the parsed clock time, whatever the current hour.
   */
  function ConvertTimestamp(ts: string, now: int): (r: Option<int>)
    ensures r.Some? <==> ParseClock(ts).Some? && InRange(ParseClock(ts).value)
    ensures r.Some? ==>
      && DayOf(r.value) == DayOf(now)
      && HourOf(r.value) == ParseClock(ts).value.hour
      && MinuteOf(r.value) == ParseClock(ts).value.minute
      && SecondOf(r.value) == 0
  {
    match ParseClock(ts)
    case None => None
    case Some(c) =>
      if InRange(c) then
        AtFields(DayOf(now), c);
        Some(At(DayOf(now), c))
      else None
  }

  /**
   * Without the day rollback, a clock time in an hour still to come today is
   * read as a future instant, where the newer scraper reads it as yesterday's.
   */
  lemma LaterHourIsFuture(ts: string, now: int)
    requires ConvertTimestamp(ts, now).Some? && ParseClock(ts).value.hour > HourOf(now)
    ensures ConvertTimestamp(ts, now).value > now
    ensures Current.ConvertTimestamp(ts, now).value < now
  {
    var c := ParseClock(ts).value;
    var d, x := DayOf(now), now % SecondsPerDay;
    assert now == d * SecondsPerDay + x;
    assert x < (HourOf(now) + 1) * SecondsPerHour;
    Current.ConvertTimestampWindow(ts, now);
    var r := Current.ConvertTimestamp(ts, now).value;
    assert r == At(d - 1, c);
  }

  function ExtractAt(c: Container, now: int): Extraction {
    ExtractFields(c, ts => ConvertTimestamp(ts, now))
  }

  /** The reading of containers during the poll at wall clock `now`. */
  function Reader(now: int): Container -> Extraction {
    c => ExtractAt(c, now)
  }

  /**
   * One pass of the `for` loop on container `c`: a stale or seen id is
   * skipped; for a new id the three fields are read, a stale field skips it
   * unmarked, a missing element or bad timestamp raises, and a full read marks
   * the id seen and queues the message unless the bot wrote it.
   */
  function Step(c: Container, seen: set<string>, read: Container -> Extraction, bot: string): (v: Visited)
    ensures seen <= v.seen
  {
    var isNew := c.id.Id? && c.id.id !in seen;
    var x := read(c);
    Visited(
      if isNew && x.Fields? then seen + {c.id.id} else seen,
      if isNew && x.Fields? && x.author != bot then [Message(c.id.id, x.author, x.instant, x.text)] else [],
      if c.id.IdDisconnected? then Some(Raised(ConnectionError))
      else if isNew && x.Failed? then Some(Raised(x.error)) else None)
  }

  /** The loop of `get_chat_data` over the containers in DOM order. */
  function Scan(cs: seq<Container>, seen: set<string>, read: Container -> Extraction, bot: string): (r: ScanResult)
    ensures seen <= r.seen
    decreases |cs|
  {
    if cs == [] then ScanResult(seen, [], Completed)
    else
      var v := Step(cs[0], seen, read, bot);
      if v.halt.Some? then ScanResult(v.seen, v.queued, v.halt.value)
      else Prepend(v.queued, Scan(cs[1..], v.seen, read, bot))
  }

  /** The queued messages carry ids that were new to the scan and that it has marked seen. */
  lemma {:induction false} ScanIdsFresh(cs: seq<Container>, seen: set<string>, read: Container -> Extraction, bot: string)
    ensures FreshIds(Scan(cs, seen, read, bot), seen)
    decreases |cs|
  {
    if cs != [] {
      var v := Step(cs[0], seen, read, bot);
      if v.halt.None? {
        ScanIdsFresh(cs[1..], v.seen, read, bot);
        var rest := Scan(cs[1..], v.seen, read, bot);
        forall i | 0 <= i < |v.queued + rest.emitted| ensures (v.queued + rest.emitted)[i].id in rest.seen - seen {
          if i >= |v.queued| {
            assert (v.queued + rest.emitted)[i] == rest.emitted[i - |v.queued|];
          } else {
            assert (v.queued + rest.emitted)[i] == v.queued[0];
          }
        }
      }
    }
  }

  /** No id is queued twice in one scan, even when two containers share an id. */
  lemma {:induction false} ScanIdsDistinct(cs: seq<Container>, seen: set<string>, read: Container -> Extraction, bot: string)
    ensures UniqueIds(Scan(cs, seen, read, bot).emitted)
    decreases |cs|
  {
    if cs != [] {
      var v := Step(cs[0], seen, read, bot);
      if v.halt.None? {
        ScanIdsDistinct(cs[1..], v.seen, read, bot);
        ScanIdsFresh(cs[1..], v.seen, read, bot);
        var rest := Scan(cs[1..], v.seen, read, bot);
        var e := v.queued + rest.emitted;
        forall i, j | 0 <= i < j < |e| ensures e[i].id != e[j].id {
          assert e[j] == rest.emitted[j - |v.queued|];
          if i >= |v.queued| {
            assert e[i] == rest.emitted[i - |v.queued|];
          } else {
            assert e[i] == v.queued[0];
          }
        }
      }
    }
  }

  /** A seen id is skipped and the scan goes on with the next container. */
  lemma SeenIdSkipped(c: Container, rest: seq<Container>, seen: set<string>, read: Container -> Extraction, bot: string)
    requires c.id.Id? && c.id.id in seen
    ensures Scan([c] + rest, seen, read, bot) == Scan(rest, seen, read, bot)
  {
    assert ([c] + rest)[1..] == rest;
    assert [] + Scan(rest, seen, read, bot).emitted == Scan(rest, seen, read, bot).emitted;
  }

  /**
   * A container that goes stale while its fields are read is skipped without
   * marking its id, so the next poll reads it again.
   */
  lemma StaleLeftUnmarked(c: Container, rest: seq<Container>, seen: set<string>, read: Container -> Extraction, bot: string)
    requires c.id.Id? && c.id.id !in seen && read(c).Stale?
    ensures Scan([c] + rest, seen, read, bot) == Scan(rest, seen, read, bot)
    ensures c.id.id !in Scan([c], seen, read, bot).seen
  {
    assert ([c] + rest)[1..] == rest;
    assert [] + Scan(rest, seen, read, bot).emitted == Scan(rest, seen, read, bot).emitted;
    assert [c][1..] == [];
  }

  /**
   * A fully read new message is marked seen; it is queued first exactly when
   * its author is not the bot, and the scan goes on with its id marked.
   */
  lemma NewMessageRead(c: Container, rest: seq<Container>, seen: set<string>, read: Container -> Extraction, bot: string)
    requires c.id.Id? && c.id.id !in seen && read(c).Fields?
    ensures var x := read(c);
      Scan([c] + rest, seen, read, bot)
        == Prepend(if x.author != bot then [Message(c.id.id, x.author, x.instant, x.text)] else [],
                   Scan(rest, seen + {c.id.id}, read, bot))
  {
    assert ([c] + rest)[1..] == rest;
  }

  /** After a completed scan, every container whose id is set and whose fields read cleanly is marked seen. */
  lemma {:induction false} CompletedMarksRead(cs: seq<Container>, seen: set<string>, read: Container -> Extraction, bot: string, k: int)
    requires Scan(cs, seen, read, bot).outcome == Completed
    requires 0 <= k < |cs| && cs[k].id.Id? && read(cs[k]).Fields?
    ensures cs[k].id.id in Scan(cs, seen, read, bot).seen
    decreases |cs|
  {
    var v := Step(cs[0], seen, read, bot);
    if k > 0 {
      assert cs[1..][k - 1] == cs[k];
      CompletedMarksRead(cs[1..], v.seen, read, bot, k - 1);
    }
  }

  /**
   * Scanning again with at least the ids a completed scan left seen queues
   * nothing: every fully read container is skipped as seen, a stale one stays
   * stale, and one that raises was already seen the first time.
   */
  lemma {:induction false} RescanEmitsNothing(cs: seq<Container>, seen: set<string>, seen2: set<string>,
                                            read: Container -> Extraction, bot: string)
    requires Scan(cs, seen, read, bot).outcome == Completed
    requires seen <= seen2 && Scan(cs, seen, read, bot).seen <= seen2
    ensures Scan(cs, seen2, read, bot) == ScanResult(seen2, [], Completed)
    decreases |cs|
  {
    if cs != [] {
      var v := Step(cs[0], seen, read, bot);
      var w := Step(cs[0], seen2, read, bot);
      assert w == Visited(seen2, [], None);
      RescanEmitsNothing(cs[1..], v.seen, seen2, read, bot);
    }
  }

  /**
   * The two versions differ on a message whose container goes stale during one
   * poll and reads cleanly at the next: this version queues it then, the newer
   * one marked its id at the first poll and never queues it.
   */
  lemma StaleThenReadable(c: Container, seen: set<string>, read1: Container -> Extraction, read2: Container -> Extraction,
                          launchTime: int, bot: string)
    requires c.id.Id? && c.id.id !in seen
    requires read1(c).Stale? && read2(c).Fields? && read2(c).author != bot
    requires Current.Admitted(read2(c).instant, read2(c).author, launchTime, bot)
    ensures var x := read2(c);
      Scan([c], Scan([c], seen, read1, bot).seen, read2, bot).emitted == [Message(c.id.id, x.author, x.instant, x.text)]
    ensures Current.Scan([c], Current.Scan([c], seen, read1, launchTime, bot).seen, read2, launchTime, bot).emitted == []
  {
    assert [c][1..] == [];
    var x := read2(c);
    assert [Message(c.id.id, x.author, x.instant, x.text)] + [] == [Message(c.id.id, x.author, x.instant, x.text)];
  }

  /**
   * The two versions differ on a seen id followed by new messages: the newer
   * scraper stops there, this one reads on.
   */
  lemma SeenIdThenNew(c: Container, d: Container, seen: set<string>, read: Container -> Extraction, launchTime: int, bot: string)
    requires c.id.Id? && c.id.id in seen && d.id.Id? && d.id.id !in seen
    requires read(d).Fields? && read(d).author != bot && Current.Admitted(read(d).instant, read(d).author, launchTime, bot)
    ensures Current.Scan([c, d], seen, read, launchTime, bot).emitted == []
    ensures |Scan([c, d], seen, read, bot).emitted| == 1
  {
    assert [c, d][1..] == [d];
    assert [d][1..] == [];
    var x := read(d);
    assert Scan([d], seen, read, bot).emitted == [Message(d.id.id, x.author, x.instant, x.text)] + [];
    assert Scan([c, d], seen, read, bot).emitted == [] + Scan([d], seen, read, bot).emitted;
  }

  /** The scan from position `i` is one pass of the loop followed by the scan from `i + 1`. */
  lemma ScanLoopStep(cs: seq<Container>, i: int, seen: set<string>, done: seq<Message>, target: ScanResult,
                     read: Container -> Extraction, bot: string)
    requires 0 <= i < |cs|
    requires target == Prepend(done, Scan(cs[i..], seen, read, bot))
    ensures var v := Step(cs[i], seen, read, bot);
      target == Prepend(done + v.queued, if v.halt.Some? then ScanResult(v.seen, [], v.halt.value)
                                         else Scan(cs[i + 1..], v.seen, read, bot))
  {
    var v := Step(cs[i], seen, read, bot);
    assert cs[i..][0] == cs[i];
    assert cs[i..][1..] == cs[i + 1..];
    PrependAssoc(done, v.queued, if v.halt.Some? then ScanResult(v.seen, [], v.halt.value)
                                 else Scan(cs[i + 1..], v.seen, read, bot));
  }

  /**
   * `get_chat_data` of this version: no containers raise; otherwise the scan
   * runs over the containers in DOM order, and a completed scan raises when
   * the scrolling after it fails. A browser that does not answer raises too,
   * before the scan or during it.
   */
  function ChatData(page: Page, seen: set<string>, readAt: int -> Container -> Extraction, bot: string): (r: ScanResult)
    ensures page.Unreachable? ==> r == ScanResult(seen, [], Raised(ConnectionError))
    ensures page.Page? && page.containers == [] ==> r == ScanResult(seen, [], Raised(NoContainers))
    ensures page.Page? && page.containers != [] ==>
      var s := Scan(page.containers, seen, readAt(page.now), bot);
      && r.seen == s.seen && r.emitted == s.emitted
      && r.outcome == AfterScroll(s.outcome, page.scroll)
  {
    match page
    case Unreachable => ScanResult(seen, [], Raised(ConnectionError))
    case Page(cs, scroll, now) =>
      if cs == [] then ScanResult(seen, [], Raised(NoContainers))
      else
        var s := Scan(cs, seen, readAt(now), bot);
        s.(outcome := AfterScroll(s.outcome, scroll))
  }

  /** Polling an unchanged page again after a completed poll queues nothing. */
  lemma RepollEmitsNothing(page: Page, seen: set<string>, readAt: int -> Container -> Extraction, bot: string)
    requires ChatData(page, seen, readAt, bot).outcome == Completed
    ensures ChatData(page, ChatData(page, seen, readAt, bot).seen, readAt, bot).emitted == []
  {
    RescanEmitsNothing(page.containers, seen, ChatData(page, seen, readAt, bot).seen, readAt(page.now), bot);
  }

  /** `get_chat_data` on the first `n` pages in turn, the seen set carried from one poll to the next. */
  function Feed(pages: seq<Page>, n: nat, seen: set<string>, readAt: int -> Container -> Extraction, bot: string): (f: FeedResult)
    requires n <= |pages|
    ensures |f.outcomes| == n
  {
    if n == 0 then FeedResult(seen, [], [])
    else
      var f := Feed(pages, n - 1, seen, readAt, bot);
      var r := ChatData(pages[n - 1], f.seen, readAt, bot);
      FeedResult(r.seen, f.emitted + r.emitted, f.outcomes + [r.outcome])
  }

  /** The `except` branch of this version's `run_scraper`: every error counts, a connection error too. */
  function AfterPoll(e: ErrorState, o: PollOutcome): ErrorState {
    if o == Completed then e else AfterPollError(e)
  }

  /** The loop of `run_scraper` over the outcomes of successive polls; it has no `break`. */
  function Run(e: ErrorState, os: seq<PollOutcome>): (r: RunState)
    ensures r.polls <= |os|
    decreases |os|
  {
    if os == [] then RunState(e, 0, !KeepPolling(e))
    else if !KeepPolling(e) then RunState(e, 0, true)
    else
      var r := Run(AfterPoll(e, os[0]), os[1..]);
      r.(polls := r.polls + 1)
  }

  lemma {:induction false} RunSnoc(e0: ErrorState, os: seq<PollOutcome>, o: PollOutcome)
    requires Run(e0, os) == RunState(Run(e0, os).errors, |os|, false)
    ensures var e := Run(e0, os).errors;
      Run(e0, os + [o]) == RunState(AfterPoll(e, o), |os| + 1, !KeepPolling(AfterPoll(e, o)))
    decreases |os|
  {
    if os != [] {
      assert (os + [o])[1..] == os[1..] + [o];
      RunSnoc(AfterPoll(e0, os[0]), os[1..], o);
    }
  }

  /**
   * Unlike the newer scraper, a connection error is counted like any other
   * failure and the loop goes on.
   */
  lemma ConnectionErrorCounted(e: ErrorState, rest: seq<PollOutcome>)
    requires KeepPolling(e)
    ensures Run(e, [Raised(ConnectionError)] + rest)
         == (var r := Run(AfterPollError(e), rest); r.(polls := r.polls + 1))
    ensures Current.Run(e, [Raised(ConnectionError)] + rest) == RunState(e, 1, true)
  {
    assert ([Raised(ConnectionError)] + rest)[1..] == rest;
  }

  /** Five failed polls in a row from a fresh scraper: the restart's `stop_event.set()` ends the loop. */
  lemma FiveFailuresEndRun(os: seq<PollOutcome>)
    requires |os| >= MaxErrors
    requires forall i :: 0 <= i < MaxErrors ==> os[i].Raised?
    ensures Run(Initial, os) == RunState(ErrorState(0, true, true), MaxErrors, true)
  {
    var e := Initial;
    var k := 0;
    while k < MaxErrors - 1
      invariant 0 <= k <= MaxErrors - 1
      invariant e == ErrorState(k, false, false)
      invariant Run(Initial, os) == (var r := Run(e, os[k..]); r.(polls := r.polls + k))
    {
      assert os[k..][0] == os[k];
      assert os[k..][1..] == os[k + 1..];
      e := AfterPollError(e);
      k := k + 1;
    }
    assert os[k..][0] == os[k];
    assert os[k..][1..] == os[k + 1..];
  }

  /** The root `YoutubeChatScraper`: its seen set, queue and error bookkeeping. */
  class YoutubeChatScraper {
    const botDisplayName: string
    const messageQueue: Queue<Record>
    /** How a poll at a given wall-clock time reads the containers: `Reader`, fixed at construction. */
    const readAt: int -> Container -> Extraction
    var seenMessages: set<string>
    var errorCount: nat
    var restartAttempt: bool
    var stopEvent: bool
    var running: bool

    constructor (botDisplayName: string)
      ensures this.botDisplayName == botDisplayName && readAt == Reader
      ensures fresh(messageQueue) && messageQueue.items == []
      ensures seenMessages == {} && State() == Initial && !running
    {
      this.botDisplayName := botDisplayName;
      messageQueue := new Queue();
      readAt := Reader;
      seenMessages := {};
      errorCount := 0;
      restartAttempt := false;
      stopEvent := false;
      running := false;
    }

    function State(): ErrorState
      reads this
    {
      ErrorState(errorCount, restartAttempt, stopEvent)
    }

    /** `get_chat_data()` against the page as the browser shows it at this poll. */
    method GetChatData(page: Page) returns (outcome: PollOutcome)
      modifies this, messageQueue
      ensures var r := ChatData(page, old(seenMessages), readAt, botDisplayName);
        && seenMessages == r.seen
        && messageQueue.items == old(messageQueue.items) + MessageRecords(r.emitted)
        && outcome == r.outcome
      ensures State() == old(State()) && running
    {
      running := true;
      if page.Unreachable? {
        return Raised(ConnectionError);
      }
      if page.containers == [] {
        return Raised(NoContainers);
      }
      outcome := ScanContainers(page.containers, readAt(page.now));
      outcome := AfterScroll(outcome, page.scroll);
    }

    /** One pass of the `for` loop of `get_chat_data()`: what it queued and whether it raised. */
    method Visit(c: Container, read: Container -> Extraction) returns (halt: Option<PollOutcome>, ghost queued: seq<Message>)
      modifies this, messageQueue
      ensures Visited(seenMessages, queued, halt) == Step(c, old(seenMessages), read, botDisplayName)
      ensures messageQueue.items == old(messageQueue.items) + MessageRecords(queued)
      ensures State() == old(State()) && running == old(running)
    {
      halt, queued := None, [];
      match c.id {
        case StaleId =>
        case IdDisconnected =>
          halt := Some(Raised(ConnectionError));
        case Id(id) =>
          if id !in seenMessages {
            match read(c) {
              case Stale =>
              case Failed(err) =>
                halt := Some(Raised(err));
              case Fields(author, instant, text) =>
                seenMessages := seenMessages + {id};
                if author != botDisplayName {
                  var m := Message(id, author, instant, text);
                  messageQueue.Put(MessageRecord(m));
                  queued := [m];
                }
            }
          }
      }
    }

    /** The `for` loop of `get_chat_data()` over the containers in DOM order, each read with `read`. */
    method ScanContainers(cs: seq<Container>, read: Container -> Extraction) returns (outcome: PollOutcome)
      modifies this, messageQueue
      ensures var r := Scan(cs, old(seenMessages), read, botDisplayName);
        && seenMessages == r.seen
        && messageQueue.items == old(messageQueue.items) + MessageRecords(r.emitted)
        && outcome == r.outcome
      ensures State() == old(State()) && running == old(running)
    {
      ghost var seen0, q0 := seenMessages, messageQueue.items;
      ghost var done: seq<Message> := [];
      var i := 0;
      var halt: Option<PollOutcome> := None;
      while i < |cs| && halt.None?
        invariant 0 <= i <= |cs|
        invariant Scan(cs, seen0, read, botDisplayName)
               == Prepend(done, if halt.Some? then ScanResult(seenMessages, [], halt.value)
                                else Scan(cs[i..], seenMessages, read, botDisplayName))
        invariant messageQueue.items == q0 + MessageRecords(done)
        invariant State() == old(State()) && running == old(running)
      {
        ScanLoopStep(cs, i, seenMessages, done, Scan(cs, seen0, read, botDisplayName), read, botDisplayName);
        ghost var queued;
        halt, queued := Visit(cs[i], read);
        QueueAppend(q0, done, queued);
        done := done + queued;
        i := i + 1;
      }
      assert done + [] == done;
      outcome := if halt.Some? then halt.value else Completed;
    }

    /** `restart()`, bookkeeping only: the same as the newer scraper's. */
    method Restart()
      modifies this
      ensures State() == Escalation.Restart(old(State())) && !running
      ensures seenMessages == old(seenMessages)
    {
      if !restartAttempt {
        restartAttempt := true;
      } else {
        errorCount := 0;
      }
      errorCount := 0;
      stopEvent := false;
      stopEvent := true;
      running := false;
    }

    /** One pass of the polling loop of `run_scraper()`: poll, then on any exception count it. */
    method PollOnce(page: Page) returns (outcome: PollOutcome)
      modifies this, messageQueue
      ensures var r := ChatData(page, old(seenMessages), readAt, botDisplayName);
        && seenMessages == r.seen
        && messageQueue.items == old(messageQueue.items) + MessageRecords(r.emitted)
        && outcome == r.outcome
      ensures State() == AfterPoll(old(State()), outcome)
    {
      outcome := GetChatData(page);
      if outcome.Raised? {
        errorCount := errorCount + 1;
        if errorCount >= MaxErrors && !restartAttempt {
          Restart();
        }
        if errorCount >= MaxErrors && restartAttempt {
          stopEvent := true;
        }
      }
    }

    /**
     * `run_scraper()`: a failed `start()` sets `stop_event` and returns; then
     * poll the successive `pages` while `stop_event` is clear and the count is
     * below the limit. The run also ends when the pages run out.
     */
    method RunScraper(startSucceeded: bool, pages: seq<Page>) returns (outcomes: seq<PollOutcome>)
      modifies this, messageQueue
      ensures |outcomes| <= |pages|
      ensures !startSucceeded ==> outcomes == [] && stopEvent && seenMessages == old(seenMessages)
      ensures !startSucceeded ==> errorCount == old(errorCount) && restartAttempt == old(restartAttempt)
      ensures !startSucceeded ==> messageQueue.items == old(messageQueue.items)
      ensures startSucceeded ==>
        var run := Run(old(State()), outcomes);
        && run.errors == State() && run.polls == |outcomes|
        && (|outcomes| == |pages| || run.ended)
      ensures startSucceeded ==>
        var f := Feed(pages, |outcomes|, old(seenMessages), readAt, botDisplayName);
        && outcomes == f.outcomes && seenMessages == f.seen
        && messageQueue.items == old(messageQueue.items) + MessageRecords(f.emitted)
    {
      if !startSucceeded {
        stopEvent := true;
        return [];
      }
      ghost var e0, seen0, q0 := State(), seenMessages, messageQueue.items;
      outcomes := [];
      while KeepPolling(State()) && |outcomes| < |pages|
        invariant |outcomes| <= |pages|
        invariant Run(e0, outcomes) == RunState(State(), |outcomes|, !KeepPolling(State()))
        invariant var f := Feed(pages, |outcomes|, seen0, readAt, botDisplayName);
          outcomes == f.outcomes && seenMessages == f.seen && messageQueue.items == q0 + MessageRecords(f.emitted)
        decreases |pages| - |outcomes|
      {
        ghost var k := |outcomes|;
        ghost var f := Feed(pages, k, seen0, readAt, botDisplayName);
        ghost var r := ChatData(pages[k], f.seen, readAt, botDisplayName);
        assert Feed(pages, k + 1, seen0, readAt, botDisplayName)
            == FeedResult(r.seen, f.emitted + r.emitted, f.outcomes + [r.outcome]);
        var outcome := PollOnce(pages[|outcomes|]);
        assert outcome == r.outcome && seenMessages == r.seen;
        QueueAppend(q0, f.emitted, r.emitted);
        RunSnoc(e0, outcomes, outcome);
        outcomes := outcomes + [outcome];
      }
    }
  }
}
