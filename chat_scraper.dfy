/**
 * The browser scraper of the chat fetchers package: reads the live-chat
 * popout page newest message first, stops at the first message it has seen
 * before, and queues the messages written after the bot was launched by
 * anyone but the bot itself.
 */
module ChatScraper {
  import opened Wrappers
  import opened PyStrings
  import opened Clock
  import opened Records
  import opened Queues
  import opened Dom
  import opened Escalation

  /**
   * `convert_timestamp(ts)` at wall clock `now`: today's UTC date at the
   * parsed clock time, or yesterday's when that hour is still to come today.
   * `None` is the `ValueError` of a malformed string or an out-of-range time.
   */
  function ConvertTimestamp(ts: string, now: int): (r: Option<int>)
    ensures r.Some? <==> ParseClock(ts).Some? && InRange(ParseClock(ts).value)
    ensures r.Some? ==>
      && HourOf(r.value) == ParseClock(ts).value.hour
      && MinuteOf(r.value) == ParseClock(ts).value.minute
      && SecondOf(r.value) == 0
    ensures r.Some? ==>
      DayOf(r.value) == (if ParseClock(ts).value.hour > HourOf(now) then DayOf(now) - 1 else DayOf(now))
  {
    match ParseClock(ts)
    case None => None
    case Some(c) =>
      var day := if c.hour > HourOf(now) then DayOf(now) - 1 else DayOf(now);
      if InRange(c) then
        AtFields(day, c);
        Some(At(day, c))
      else None
  }

  /** The first instant of the hour after the one `t` falls in. */
  function NextHour(t: int): int {
    (t / SecondsPerHour + 1) * SecondsPerHour
  }

  /** A converted time lies in the 24 hours that end with the current clock hour. */
  lemma ConvertTimestampWindow(ts: string, now: int)
    requires ConvertTimestamp(ts, now).Some?
    ensures now - SecondsPerDay < ConvertTimestamp(ts, now).value < NextHour(now)
  {
    var c := ParseClock(ts).value;
    var d, x := DayOf(now), now % SecondsPerDay;
    var h, y := x / SecondsPerHour, x % SecondsPerHour;
    assert now == d * SecondsPerDay + h * SecondsPerHour + y;
    DivModUnique(now, SecondsPerHour, d * 24 + h, y);
    assert NextHour(now) == d * SecondsPerDay + (h + 1) * SecondsPerHour;
  }

  /** Reading one container at wall clock `now`, timestamps converted as above. */
  function ExtractAt(c: Container, now: int): Extraction {
    ExtractFields(c, ts => ConvertTimestamp(ts, now))
  }

  /** The reading of containers during the poll at wall clock `now`. */
  function Reader(now: int): Container -> Extraction {
    c => ExtractAt(c, now)
  }

  /**
   * The time filter and the author filter: the message's minute is not before
   * the launch minute, and it was not written by the bot.
   */
  predicate Admitted(instant: int, author: string, launchTime: int, bot: string) {
    RoundToMinute(instant) >= RoundToMinute(launchTime) && author != bot
  }

  /**
   * One pass of the `for` loop of `get_chat_data` on container `c`: a stale
   * id skips it, a lost browser raises, a seen id ends the loop (`break`), a
   * new id is marked seen before the fields are read; then a stale field
   * skips, a missing element, a bad timestamp or a lost browser raises, and a
   * readable message is queued when admitted.
   */
  function Step(c: Container, seen: set<string>, read: Container -> Extraction, launchTime: int, bot: string): (v: Visited)
    ensures seen <= v.seen
  {
    var isNew := c.id.Id? && c.id.id !in seen;
    Visited(
      if isNew then seen + {c.id.id} else seen,
      if isNew then Candidate(c, read, launchTime, bot) else [],
      if c.id.StaleId? then None
      else if c.id.IdDisconnected? then Some(Raised(ConnectionError))
      else if !isNew then Some(Completed)
      else if read(c).Failed? then Some(Raised(read(c).error))
      else None)
  }

  /** The loop of `get_chat_data` over the containers, newest first. */
  function Scan(cs: seq<Container>, seen: set<string>, read: Container -> Extraction, launchTime: int, bot: string): (r: ScanResult)
    ensures seen <= r.seen
    decreases |cs|
  {
    if cs == [] then ScanResult(seen, [], Completed)
    else
      var v := Step(cs[0], seen, read, launchTime, bot);
      if v.halt.Some? then ScanResult(v.seen, v.queued, v.halt.value)
      else Prepend(v.queued, Scan(cs[1..], v.seen, read, launchTime, bot))
  }

  /** The queued records carry ids that were new to the scan and that it has marked seen. */
  lemma {:induction false} ScanIdsFresh(cs: seq<Container>, seen: set<string>, read: Container -> Extraction, launchTime: int, bot: string)
    ensures FreshIds(Scan(cs, seen, read, launchTime, bot), seen)
    decreases |cs|
  {
    if cs != [] && cs[0].id.Id? {
      var id := cs[0].id.id;
      var v := Step(cs[0], seen, read, launchTime, bot);
      if id !in seen && v.halt.None? {
        ScanIdsFresh(cs[1..], seen + {id}, read, launchTime, bot);
        var rest := Scan(cs[1..], seen + {id}, read, launchTime, bot);
        var q := Candidate(cs[0], read, launchTime, bot);
        assert v.queued == q && v.seen == seen + {id};
        forall i | 0 <= i < |q + rest.emitted| ensures (q + rest.emitted)[i].id in rest.seen - seen {
          if i >= |q| {
            assert (q + rest.emitted)[i] == rest.emitted[i - |q|];
          } else {
            assert (q + rest.emitted)[i] == q[0];
          }
        }
      }
    } else if cs != [] {
      ScanIdsFresh(cs[1..], seen, read, launchTime, bot);
      var rest := Scan(cs[1..], seen, read, launchTime, bot);
      assert [] + rest.emitted == rest.emitted;
    }
  }

  /** No id is queued twice in one scan. */
  lemma {:induction false} ScanIdsDistinct(cs: seq<Container>, seen: set<string>, read: Container -> Extraction, launchTime: int, bot: string)
    ensures UniqueIds(Scan(cs, seen, read, launchTime, bot).emitted)
    decreases |cs|
  {
    if cs != [] && cs[0].id.Id? {
      var id := cs[0].id.id;
      var v := Step(cs[0], seen, read, launchTime, bot);
      if id !in seen && v.halt.None? {
        ScanIdsDistinct(cs[1..], seen + {id}, read, launchTime, bot);
        ScanIdsFresh(cs[1..], seen + {id}, read, launchTime, bot);
        var rest := Scan(cs[1..], seen + {id}, read, launchTime, bot);
        var q := Candidate(cs[0], read, launchTime, bot);
        assert v.queued == q && v.seen == seen + {id};
        var e := q + rest.emitted;
        forall i, j | 0 <= i < j < |e| ensures e[i].id != e[j].id {
          assert e[j] == rest.emitted[j - |q|];
          if i >= |q| {
            assert e[i] == rest.emitted[i - |q|];
          } else {
            assert e[i] == q[0];
          }
        }
      }
    } else if cs != [] {
      ScanIdsDistinct(cs[1..], seen, read, launchTime, bot);
      var rest := Scan(cs[1..], seen, read, launchTime, bot);
      assert [] + rest.emitted == rest.emitted;
    }
  }

  /** The scan from position `i` is one pass of the loop followed by the scan from `i + 1`. */
  lemma ScanAdvance(cs: seq<Container>, i: int, seen: set<string>, read: Container -> Extraction, launchTime: int, bot: string)
    requires 0 <= i < |cs|
    ensures var v := Step(cs[i], seen, read, launchTime, bot);
      Scan(cs[i..], seen, read, launchTime, bot)
        == Prepend(v.queued, if v.halt.Some? then ScanResult(v.seen, [], v.halt.value)
                             else Scan(cs[i + 1..], v.seen, read, launchTime, bot))
  {
    assert cs[i..][0] == cs[i];
    assert cs[i..][1..] == cs[i + 1..];
  }

  /** The loop invariant of `ScanContainers` carried across one pass. */
  lemma ScanLoopStep(cs: seq<Container>, i: int, seen: set<string>, done: seq<Message>, target: ScanResult,
                     read: Container -> Extraction, launchTime: int, bot: string)
    requires 0 <= i < |cs|
    requires target == Prepend(done, Scan(cs[i..], seen, read, launchTime, bot))
    ensures var v := Step(cs[i], seen, read, launchTime, bot);
      target == Prepend(done + v.queued, if v.halt.Some? then ScanResult(v.seen, [], v.halt.value)
                                         else Scan(cs[i + 1..], v.seen, read, launchTime, bot))
  {
    var v := Step(cs[i], seen, read, launchTime, bot);
    ScanAdvance(cs, i, seen, read, launchTime, bot);
    PrependAssoc(done, v.queued, if v.halt.Some? then ScanResult(v.seen, [], v.halt.value)
                                 else Scan(cs[i + 1..], v.seen, read, launchTime, bot));
  }

  /**
   * The record container `c` yields when it has an id, reads cleanly and
   * passes both filters; nothing otherwise.
   */
  function Candidate(c: Container, read: Container -> Extraction, launchTime: int, bot: string): (q: seq<Message>)
    ensures |q| <= 1
    ensures q != [] <==> c.id.Id? && read(c).Fields? && Admitted(read(c).instant, read(c).author, launchTime, bot)
    ensures q != [] ==> q[0] == Message(c.id.id, read(c).author, read(c).instant, read(c).text)
  {
    match (c.id, read(c))
    case (Id(id), Fields(author, instant, text)) =>
      if Admitted(instant, author, launchTime, bot) then [Message(id, author, instant, text)] else []
    case _ => []
  }

  /** The records of all containers that could be queued, in scan order. */
  function Candidates(cs: seq<Container>, read: Container -> Extraction, launchTime: int, bot: string): seq<Message> {
    if cs == [] then [] else Candidate(cs[0], read, launchTime, bot) + Candidates(cs[1..], read, launchTime, bot)
  }

  /**
   * Every queued record is the record of an admitted, readable container of
   * the scan whose id was not seen before.
   */
  lemma {:induction false} ScanEmittedSound(cs: seq<Container>, seen: set<string>, read: Container -> Extraction, launchTime: int, bot: string)
    ensures var r := Scan(cs, seen, read, launchTime, bot);
      forall e :: e in r.emitted ==> e.id !in seen && e in Candidates(cs, read, launchTime, bot)
    decreases |cs|
  {
    if cs != [] {
      match cs[0].id
      case StaleId =>
        ScanEmittedSound(cs[1..], seen, read, launchTime, bot);
      case IdDisconnected =>
      case Id(id) =>
        if id !in seen {
          ScanEmittedSound(cs[1..], seen + {id}, read, launchTime, bot);
        }
    }
  }

  /**
   * The scan ends at a container whose id is already seen, whatever comes
   * after it: once the newer containers `p` are done and `c`'s id is among
   * the seen ones, no older container is examined.
   */
  lemma {:induction false} ScanStopsAtSeen(p: seq<Container>, c: Container, t1: seq<Container>, t2: seq<Container>,
                                         seen: set<string>, read: Container -> Extraction, launchTime: int, bot: string)
    requires Scan(p, seen, read, launchTime, bot).outcome == Completed
    requires c.id.Id? && c.id.id in Scan(p, seen, read, launchTime, bot).seen
    ensures Scan(p + [c] + t1, seen, read, launchTime, bot) == Scan(p + [c] + t2, seen, read, launchTime, bot)
    decreases |p|
  {
    if p != [] {
      assert (p + [c] + t1)[1..] == p[1..] + [c] + t1;
      assert (p + [c] + t2)[1..] == p[1..] + [c] + t2;
      match p[0].id
      case StaleId =>
        ScanStopsAtSeen(p[1..], c, t1, t2, seen, read, launchTime, bot);
      case IdDisconnected =>
      case Id(id) =>
        if id !in seen {
          match read(p[0])
          case Stale =>
            ScanStopsAtSeen(p[1..], c, t1, t2, seen + {id}, read, launchTime, bot);
          case Failed(_) =>
          case Fields(_, _, _) =>
            ScanStopsAtSeen(p[1..], c, t1, t2, seen + {id}, read, launchTime, bot);
        }
    }
  }

  /**
   * A browser lost in the middle of a scan keeps what was queued before it:
   * a new admitted message, then a container whose id can no longer be read,
   * ends the scan raised with that message queued and its id marked.
   */
  lemma LostMidScan(c: Container, d: Container, rest: seq<Container>, seen: set<string>,
                    read: Container -> Extraction, launchTime: int, bot: string)
    requires c.id.Id? && c.id.id !in seen && read(c).Fields? && Admitted(read(c).instant, read(c).author, launchTime, bot)
    requires d.id == IdDisconnected
    ensures var r := Scan([c, d] + rest, seen, read, launchTime, bot);
      && r.emitted == [Message(c.id.id, read(c).author, read(c).instant, read(c).text)]
      && r.seen == seen + {c.id.id}
      && r.outcome == Raised(ConnectionError)
  {
    assert ([c, d] + rest)[0] == c && ([c, d] + rest)[1..] == [d] + rest;
    assert ([d] + rest)[0] == d;
  }

  /**
   * How a scan ends that finds every id already seen: at the newest container
   * whose id does not go stale, raised when reading that id lost the browser.
   */
  function LeadingIdOutcome(cs: seq<Container>): PollOutcome {
    if cs == [] then Completed
    else if cs[0].id.StaleId? then LeadingIdOutcome(cs[1..])
    else if cs[0].id.IdDisconnected? then Raised(ConnectionError)
    else Completed
  }

  /**
   * Scanning again with at least the ids the first scan left seen queues and
   * marks nothing: the newest container with an id was marked by the first
   * scan, so the second one stops there. It completes, unless reading that
   * id lost the browser, which the first scan then ran into as well.
   */
  lemma {:induction false} RescanEmitsNothing(cs: seq<Container>, seen: set<string>, seen2: set<string>,
                                            read: Container -> Extraction, launchTime: int, bot: string)
    requires Scan(cs, seen, read, launchTime, bot).seen <= seen2
    ensures Scan(cs, seen2, read, launchTime, bot) == ScanResult(seen2, [], LeadingIdOutcome(cs))
    ensures LeadingIdOutcome(cs) == Completed || Scan(cs, seen, read, launchTime, bot).outcome == Raised(ConnectionError)
    decreases |cs|
  {
    if cs != [] && cs[0].id.StaleId? {
      RescanEmitsNothing(cs[1..], seen, seen2, read, launchTime, bot);
    }
  }

  /**
   * A new id is marked seen whether or not its message is queued: the one
   * container `c` is queued exactly when it reads cleanly and is admitted,
   * and otherwise the scan goes on as if it had not been there, with its id
   * marked.
   */
  lemma NewIdMarked(c: Container, rest: seq<Container>, seen: set<string>, read: Container -> Extraction, launchTime: int, bot: string)
    requires c.id.Id? && c.id.id !in seen
    ensures var r := Scan([c] + rest, seen, read, launchTime, bot);
      && c.id.id in r.seen
      && (|r.emitted| > 0 && r.emitted[0].id == c.id.id <==>
            read(c).Fields? && Admitted(read(c).instant, read(c).author, launchTime, bot))
  {
    assert ([c] + rest)[1..] == rest;
    ScanIdsFresh(rest, seen + {c.id.id}, read, launchTime, bot);
  }

  /**
   * `get_chat_data` on a page, its containers read with `readAt(page.now)`:
   * an unreachable browser raises a connection error; no containers raise
   * before anything changes; otherwise the scan runs over the reversed
   * containers (a browser lost during it raises after whatever was queued
   * so far), and a completed scan raises only when the scrolling after it
   * fails. The scraper's own reading is `Reader`.
   */
  function ChatData(page: Page, seen: set<string>, readAt: int -> Container -> Extraction, launchTime: int, bot: string): (r: ScanResult)
    ensures page.Unreachable? ==> r == ScanResult(seen, [], Raised(ConnectionError))
    ensures page.Page? && page.containers == [] ==> r == ScanResult(seen, [], Raised(NoContainers))
    ensures page.Page? && page.containers != [] ==>
      var s := Scan(Reverse(page.containers), seen, readAt(page.now), launchTime, bot);
      && r.seen == s.seen && r.emitted == s.emitted
      && r.outcome == AfterScroll(s.outcome, page.scroll)
  {
    match page
    case Unreachable => ScanResult(seen, [], Raised(ConnectionError))
    case Page(cs, scroll, now) =>
      if cs == [] then ScanResult(seen, [], Raised(NoContainers))
      else
        var s := Scan(Reverse(cs), seen, readAt(now), launchTime, bot);
        s.(outcome := AfterScroll(s.outcome, scroll))
  }

  /**
   * In DOM terms: once the containers after `c` are scanned and `c`'s id is
   * seen, the containers before `c` (older messages) make no difference.
   */
  lemma ChatDataIgnoresOlder(o1: seq<Container>, o2: seq<Container>, c: Container, newer: seq<Container>,
                             scroll: Scroll, now: nat, seen: set<string>,
                             readAt: int -> Container -> Extraction, launchTime: int, bot: string)
    requires Scan(Reverse(newer), seen, readAt(now), launchTime, bot).outcome == Completed
    requires c.id.Id? && c.id.id in Scan(Reverse(newer), seen, readAt(now), launchTime, bot).seen
    ensures ChatData(Page(o1 + [c] + newer, scroll, now), seen, readAt, launchTime, bot)
         == ChatData(Page(o2 + [c] + newer, scroll, now), seen, readAt, launchTime, bot)
  {
    ReverseAppend(o1 + [c], newer);
    ReverseAppend(o1, [c]);
    ReverseAppend(o2 + [c], newer);
    ReverseAppend(o2, [c]);
    assert Reverse([c]) == [c];
    assert Reverse(o1 + [c] + newer) == Reverse(newer) + [c] + Reverse(o1);
    assert Reverse(o2 + [c] + newer) == Reverse(newer) + [c] + Reverse(o2);
    ScanStopsAtSeen(Reverse(newer), c, Reverse(o1), Reverse(o2), seen, readAt(now), launchTime, bot);
  }

  /** Polling an unchanged page a second time queues nothing. */
  lemma RepollEmitsNothing(page: Page, seen: set<string>, readAt: int -> Container -> Extraction, launchTime: int, bot: string)
    ensures ChatData(page, ChatData(page, seen, readAt, launchTime, bot).seen, readAt, launchTime, bot).emitted == []
  {
    if page.Page? && page.containers != [] {
      RescanEmitsNothing(Reverse(page.containers), seen, ChatData(page, seen, readAt, launchTime, bot).seen,
                         readAt(page.now), launchTime, bot);
    }
  }

  /** `get_chat_data` on the first `n` pages in turn, the seen set carried from one poll to the next. */
  function Feed(pages: seq<Page>, n: nat, seen: set<string>, readAt: int -> Container -> Extraction, launchTime: int, bot: string): (f: FeedResult)
    requires n <= |pages|
    ensures |f.outcomes| == n
  {
    if n == 0 then FeedResult(seen, [], [])
    else
      var f := Feed(pages, n - 1, seen, readAt, launchTime, bot);
      var r := ChatData(pages[n - 1], f.seen, readAt, launchTime, bot);
      FeedResult(r.seen, f.emitted + r.emitted, f.outcomes + [r.outcome])
  }

  /**
   * The `except` branch of `run_scraper` for one poll's outcome: a connection
   * error leaves the loop uncounted, as does a `stop_event` set meanwhile;
   * any other error counts and may restart or stop. The flag says whether the
   * loop was left by `break`.
   */
  function AfterPoll(e: ErrorState, o: PollOutcome): (ErrorState, bool) {
    if o == Completed then (e, false)
    else if o.error == ConnectionError then (e, true)
    else if e.stopEvent then (e, true)
    else (AfterPollError(e), false)
  }

  /** The loop of `run_scraper` over the outcomes of successive polls. */
  function Run(e: ErrorState, os: seq<PollOutcome>): (r: RunState)
    ensures r.polls <= |os|
    decreases |os|
  {
    if os == [] then RunState(e, 0, !KeepPolling(e))
    else if !KeepPolling(e) then RunState(e, 0, true)
    else
      var (e1, exit) := AfterPoll(e, os[0]);
      if exit then RunState(e1, 1, true)
      else
        var r := Run(e1, os[1..]);
        r.(polls := r.polls + 1)
  }

  lemma {:induction false} RunSnoc(e0: ErrorState, os: seq<PollOutcome>, o: PollOutcome)
    requires Run(e0, os) == RunState(Run(e0, os).errors, |os|, false)
    ensures var e := Run(e0, os).errors;
      Run(e0, os + [o]) == RunState(AfterPoll(e, o).0, |os| + 1, AfterPoll(e, o).1 || !KeepPolling(AfterPoll(e, o).0))
    decreases |os|
  {
    if os != [] {
      var (e1, exit) := AfterPoll(e0, os[0]);
      assert (os + [o])[1..] == os[1..] + [o];
      RunSnoc(e1, os[1..], o);
    }
  }

  /** Started from a state within the limit, the loop never lets the count pass `MaxErrors`. */
  lemma {:induction false} RunWithinLimit(e: ErrorState, os: seq<PollOutcome>)
    requires e.errorCount <= MaxErrors
    ensures Run(e, os).errors.errorCount <= MaxErrors
    decreases |os|
  {
    if os != [] && KeepPolling(e) {
      var (e1, exit) := AfterPoll(e, os[0]);
      if !exit {
        RunWithinLimit(e1, os[1..]);
      }
    }
  }

  /**
   * Five failed polls from a fresh scraper restart it, and the restart's own
   * `stop_event.set()` ends the loop right there: no sixth poll is made.
   */
  lemma FiveFailuresEndRun(os: seq<PollOutcome>)
    requires |os| >= MaxErrors
    requires forall i :: 0 <= i < MaxErrors ==> os[i].Raised? && os[i].error != ConnectionError
    ensures Run(Initial, os) == RunState(ErrorState(0, true, true), MaxErrors, true)
  {
    var e := Initial;
    var k := 0;
    while k < MaxErrors - 1
      invariant 0 <= k <= MaxErrors - 1
      invariant e == ErrorState(k, false, false)
      invariant Run(Initial, os) == (var r := Run(e, os[k..]); r.(polls := r.polls + k))
    {
      assert os[k..][0] == os[k];
      assert os[k..][1..] == os[k + 1..];
      e := AfterPollError(e);
      k := k + 1;
    }
    assert os[k..][0] == os[k];
    assert os[k..][1..] == os[k + 1..];
  }

  /** A connection error leaves the loop at once and is not counted. */
  lemma ConnectionErrorEndsRun(e: ErrorState, rest: seq<PollOutcome>)
    requires KeepPolling(e)
    ensures Run(e, [Raised(ConnectionError)] + rest) == RunState(e, 1, true)
  {
  }

  /** `YoutubeChatScraper`: its seen set, queue and error bookkeeping. */
  class YoutubeChatScraper {
    const botDisplayName: string
    /** `launch_time`, fixed when the scraper is made. */
    const launchTime: int
    const messageQueue: Queue<Record>
    /** How a poll at a given wall-clock time reads the containers: `Reader`, fixed at construction. */
    const readAt: int -> Container -> Extraction
    var seenMessages: set<string>
    var errorCount: nat
    var restartAttempt: bool
    var stopEvent: bool
    var running: bool

    constructor (botDisplayName: string, launchTime: int)
      ensures this.botDisplayName == botDisplayName && this.launchTime == launchTime && readAt == Reader
      ensures fresh(messageQueue) && messageQueue.items == []
      ensures seenMessages == {} && State() == Initial && !running
    {
      this.botDisplayName := botDisplayName;
      this.launchTime := launchTime;
      readAt := Reader;
      messageQueue := new Queue();
      seenMessages := {};
      errorCount := 0;
      restartAttempt := false;
      stopEvent := false;
      running := false;
    }

    function State(): ErrorState
      reads this
    {
      ErrorState(errorCount, restartAttempt, stopEvent)
    }

    /** `get_chat_data()` against the page as the browser shows it at this poll. */
    method GetChatData(page: Page) returns (outcome: PollOutcome)
      modifies this, messageQueue
      ensures var r := ChatData(page, old(seenMessages), readAt, launchTime, botDisplayName);
        && seenMessages == r.seen
        && messageQueue.items == old(messageQueue.items) + MessageRecords(r.emitted)
        && outcome == r.outcome
      ensures State() == old(State()) && running
    {
      running := true;
      if page.Unreachable? {
        return Raised(ConnectionError);
      }
      if page.containers == [] {
        return Raised(NoContainers);
      }
      outcome := ScanContainers(Reverse(page.containers), readAt(page.now));
      outcome := AfterScroll(outcome, page.scroll);
    }

    /**
     * One pass of the `for` loop of `get_chat_data()` on the first of `cs`:
     * the records it queued, and whether the loop ends here (a seen id:
     * `break`; an exception that leaves the method: raised).
     */
    method Visit(c: Container, read: Container -> Extraction) returns (halt: Option<PollOutcome>, ghost queued: seq<Message>)
      modifies this, messageQueue
      ensures Visited(seenMessages, queued, halt) == Step(c, old(seenMessages), read, launchTime, botDisplayName)
      ensures messageQueue.items == old(messageQueue.items) + MessageRecords(queued)
      ensures State() == old(State()) && running == old(running)
    {
      halt, queued := None, [];
      match c.id {
        case StaleId =>
        case IdDisconnected =>
          halt := Some(Raised(ConnectionError));
        case Id(id) =>
          if id in seenMessages {
            halt := Some(Completed);
            return;
          }
          seenMessages := seenMessages + {id};
          match read(c) {
            case Stale =>
            case Failed(err) =>
              halt := Some(Raised(err));
            case Fields(author, instant, text) =>
              if Admitted(instant, author, launchTime, botDisplayName) {
                var e := Message(id, author, instant, text);
                messageQueue.Put(MessageRecord(e));
                queued := [e];
              }
          }
      }
    }

    /** The `for` loop of `get_chat_data()` over the reversed containers, each read with `read`. */
    method ScanContainers(cs: seq<Container>, read: Container -> Extraction) returns (outcome: PollOutcome)
      modifies this, messageQueue
      ensures var r := Scan(cs, old(seenMessages), read, launchTime, botDisplayName);
        && seenMessages == r.seen
        && messageQueue.items == old(messageQueue.items) + MessageRecords(r.emitted)
        && outcome == r.outcome
      ensures State() == old(State()) && running == old(running)
    {
      ghost var seen0, q0 := seenMessages, messageQueue.items;
      ghost var done: seq<Message> := [];
      var i := 0;
      var halt: Option<PollOutcome> := None;
      while i < |cs| && halt.None?
        invariant 0 <= i <= |cs|
        invariant Scan(cs, seen0, read, launchTime, botDisplayName)
               == Prepend(done, if halt.Some? then ScanResult(seenMessages, [], halt.value)
                                else Scan(cs[i..], seenMessages, read, launchTime, botDisplayName))
        invariant messageQueue.items == q0 + MessageRecords(done)
        invariant State() == old(State()) && running == old(running)
      {
        ScanLoopStep(cs, i, seenMessages, done, Scan(cs, seen0, read, launchTime, botDisplayName),
                     read, launchTime, botDisplayName);
        ghost var queued;
        halt, queued := Visit(cs[i], read);
        QueueAppend(q0, done, queued);
        done := done + queued;
        i := i + 1;
      }
      assert done + [] == done;
      outcome := if halt.Some? then halt.value else Completed;
    }

    /**
     * `restart()`, bookkeeping only: mark the attempt, zero the counter, and
     * clear then set `stop_event`.
     */
    method Restart()
      modifies this
      ensures State() == Escalation.Restart(old(State())) && !running
      ensures seenMessages == old(seenMessages)
    {
      if !restartAttempt {
        restartAttempt := true;
      } else {
        errorCount := 0;
      }
      errorCount := 0;
      stopEvent := false;
      stopEvent := true;
      running := false;
    }

    /**
     * One pass of the polling loop of `run_scraper()`: poll, then on an
     * exception the `except` branch. Says whether the loop was left by `break`.
     */
    method PollOnce(page: Page) returns (outcome: PollOutcome, exit: bool)
      modifies this, messageQueue
      ensures var r := ChatData(page, old(seenMessages), readAt, launchTime, botDisplayName);
        && seenMessages == r.seen
        && messageQueue.items == old(messageQueue.items) + MessageRecords(r.emitted)
        && outcome == r.outcome
      ensures (State(), exit) == AfterPoll(old(State()), outcome)
    {
      outcome := GetChatData(page);
      exit := false;
      if outcome.Raised? {
        if outcome.error == ConnectionError {
          return outcome, true;
        }
        if stopEvent {
          return outcome, true;
        }
        errorCount := errorCount + 1;
        if errorCount >= MaxErrors && !restartAttempt {
          Restart();
        }
        if errorCount >= MaxErrors && restartAttempt {
          stopEvent := true;
        }
      }
    }

    /**
     * `run_scraper()`: a failed `start()` sets `stop_event` and returns; then
     * poll the successive `pages` while `stop_event` is clear and the count is
     * below the limit. The outcomes of the polls made are returned; the run
     * also ends when the pages run out.
     */
    method RunScraper(startSucceeded: bool, pages: seq<Page>) returns (outcomes: seq<PollOutcome>)
      modifies this, messageQueue
      ensures |outcomes| <= |pages|
      ensures !startSucceeded ==> outcomes == [] && stopEvent && seenMessages == old(seenMessages)
      ensures !startSucceeded ==> errorCount == old(errorCount) && restartAttempt == old(restartAttempt)
      ensures !startSucceeded ==> messageQueue.items == old(messageQueue.items)
      ensures startSucceeded ==>
        var run := Run(old(State()), outcomes);
        && run.errors == State() && run.polls == |outcomes|
        && (|outcomes| == |pages| || run.ended)
      ensures startSucceeded ==>
        var f := Feed(pages, |outcomes|, old(seenMessages), readAt, launchTime, botDisplayName);
        && outcomes == f.outcomes && seenMessages == f.seen
        && messageQueue.items == old(messageQueue.items) + MessageRecords(f.emitted)
    {
      if !startSucceeded {
        stopEvent := true;
        return [];
      }
      ghost var e0, seen0, q0 := State(), seenMessages, messageQueue.items;
      outcomes := [];
      while KeepPolling(State()) && |outcomes| < |pages|
        invariant |outcomes| <= |pages|
        invariant Run(e0, outcomes) == RunState(State(), |outcomes|, !KeepPolling(State()))
        invariant var f := Feed(pages, |outcomes|, seen0, readAt, launchTime, botDisplayName);
          outcomes == f.outcomes && seenMessages == f.seen && messageQueue.items == q0 + MessageRecords(f.emitted)
        decreases |pages| - |outcomes|
      {
        ghost var k := |outcomes|;
        ghost var f := Feed(pages, k, seen0, readAt, launchTime, botDisplayName);
        ghost var r := ChatData(pages[k], f.seen, readAt, launchTime, botDisplayName);
        assert Feed(pages, k + 1, seen0, readAt, launchTime, botDisplayName)
            == FeedResult(r.seen, f.emitted + r.emitted, f.outcomes + [r.outcome]);
        var outcome, exit := PollOnce(pages[|outcomes|]);
        assert outcome == r.outcome && seenMessages == r.seen;
        QueueAppend(q0, f.emitted, r.emitted);
        RunSnoc(e0, outcomes, outcome);
        outcomes := outcomes + [outcome];
        if exit {
          break;
        }
      }
    }
  }
}
