/**
 * What the browser scrapers see of the live-chat page in one poll: the chat
 * message containers in DOM order (oldest first), each read through the
 * driver. A read either yields text or raises one of Selenium's exceptions.
 */
module Dom {
  import opened Wrappers
  import opened PyStrings
  import opened Clock
  import opened Records

  /** `element.innerText` of a sub-element found by CSS selector. */
  datatype DomRead =
    | Text(value: string)
    | StaleElement   // StaleElementReferenceException
    | NoSuchElement  // NoSuchElementException: the sub-element is not there
    | Disconnected   // urllib3 NewConnectionError / MaxRetryError: the browser stopped answering

  /** `container.get_attribute("id")`: the id, a stale element, or a browser that stopped answering. */
  datatype IdRead = Id(id: string) | StaleId | IdDisconnected

  /** One `yt-live-chat-text-message-renderer` element. */
  datatype Container = Container(id: IdRead, author: DomRead, timestamp: DomRead, message: DomRead)

  /**
   * The driver calls after the container loop (the random interactions and
   * the scrolling): they succeed, `item-scroller` is missing, or the browser
   * stops answering.
   */
  datatype Scroll = Scrolled | ScrollerAbsent | ScrollDisconnected

  /**
   * The page at one poll: its containers in DOM order, how the scrolling after
   * the loop goes, and the wall clock at that moment; or a browser session that
   * no longer answers when the containers are looked up (urllib3's connection errors).
   */
  datatype Page = Page(containers: seq<Container>, scroll: Scroll, now: nat) | Unreachable

  /** Why `get_chat_data` raised. */
  datatype PollError =
    | NoContainers     // "No chat containers found."
    | MissingElement   // NoSuchElementException from find_element
    | BadTimestamp     // ValueError from convert_timestamp
    | ScrollerMissing  // NoSuchElementException for 'item-scroller'
    | ConnectionError  // urllib3 NewConnectionError / MaxRetryError

  datatype PollOutcome = Completed | Raised(error: PollError)

  /** How `get_chat_data` ends once its container loop ended with `o`: the scrolling only runs after a loop that did not raise. */
  function AfterScroll(o: PollOutcome, s: Scroll): (r: PollOutcome)
    ensures o.Raised? ==> r == o
    ensures o == Completed ==> (r == Completed <==> s == Scrolled)
    ensures r.Raised? && o == Completed ==> r.error == (if s == ScrollerAbsent then ScrollerMissing else ConnectionError)
  {
    if o.Raised? then o
    else match s
      case Scrolled => Completed
      case ScrollerAbsent => Raised(ScrollerMissing)
      case ScrollDisconnected => Raised(ConnectionError)
  }

  /** The result of reading a container's author, timestamp and message, in that order. */
  datatype Extraction =
    | Stale                                             // a read went stale: skip the container
    | Failed(error: PollError)                          // an exception that leaves get_chat_data
    | Fields(author: string, instant: int, text: string)

  /**
   * Reads author, then timestamp (stripped and converted by `convert`, whose
   * `None` is a `ValueError`), then message, stopping at the first exception.
   */
  function ExtractFields(c: Container, convert: string -> Option<int>): (x: Extraction)
    ensures x.Fields? ==> c.author.Text? && c.timestamp.Text? && c.message.Text?
    ensures x.Fields? ==> x.author == Strip(c.author.value) && x.text == Strip(c.message.value)
    ensures x.Fields? ==> convert(Strip(c.timestamp.value)) == Some(x.instant)
    ensures x.Failed? ==> x.error in {MissingElement, BadTimestamp, ConnectionError}
    ensures x.Failed? && x.error == ConnectionError ==>
      c.author == Disconnected || c.timestamp == Disconnected || c.message == Disconnected
    ensures c.author == Disconnected ==> x == Failed(ConnectionError)
  {
    match c.author
    case StaleElement => Stale
    case NoSuchElement => Failed(MissingElement)
    case Disconnected => Failed(ConnectionError)
    case Text(a) =>
      match c.timestamp
      case StaleElement => Stale
      case NoSuchElement => Failed(MissingElement)
      case Disconnected => Failed(ConnectionError)
      case Text(t) =>
        match convert(Strip(t))
        case None => Failed(BadTimestamp)
        case Some(instant) =>
          match c.message
          case StaleElement => Stale
          case NoSuchElement => Failed(MissingElement)
          case Disconnected => Failed(ConnectionError)
          case Text(m) => Fields(Strip(a), instant, Strip(m))
  }

  /** A chat message as read off the page, with the DOM id of its container and its instant. */
  datatype Message = Message(id: string, author: string, instant: int, text: string)

  /** The dictionary queued for a message, its time rendered by `isoformat()`. */
  function MessageRecord(m: Message): Record {
    MakeRecord(m.author, IsoFormat(m.instant), m.text)
  }

  /** `f` applied to each element of `s`, in order. */
  function MapSeq<A, B>(f: A -> B, s: seq<A>): (r: seq<B>)
    ensures |r| == |s|
    ensures forall i :: 0 <= i < |s| ==> r[i] == f(s[i])
  {
    if s == [] then [] else [f(s[0])] + MapSeq(f, s[1..])
  }

  lemma {:induction false} MapSeqAppend<A, B>(f: A -> B, a: seq<A>, b: seq<A>)
    ensures MapSeq(f, a + b) == MapSeq(f, a) + MapSeq(f, b)
  {
    if a == [] {
      assert a + b == b;
    } else {
      assert (a + b)[0] == a[0] && (a + b)[1..] == a[1..] + b;
      MapSeqAppend(f, a[1..], b);
      assert [f(a[0])] + (MapSeq(f, a[1..]) + MapSeq(f, b)) == ([f(a[0])] + MapSeq(f, a[1..])) + MapSeq(f, b);
    }
  }

  /** The dictionaries queued for a run of messages, in order. */
  function MessageRecords(ms: seq<Message>): (rs: seq<Record>)
    ensures |rs| == |ms|
    ensures forall i :: 0 <= i < |ms| ==> rs[i] == MessageRecord(ms[i])
  {
    MapSeq(MessageRecord, ms)
  }

  lemma MessageRecordsAppend(a: seq<Message>, b: seq<Message>)
    ensures MessageRecords(a + b) == MessageRecords(a) + MessageRecords(b)
  {
    MapSeqAppend(MessageRecord, a, b);
  }

  /** Queueing `a` and then `b` onto `q` queues the records of `a + b`. */
  lemma QueueAppend(q: seq<Record>, a: seq<Message>, b: seq<Message>)
    ensures q + MessageRecords(a + b) == (q + MessageRecords(a)) + MessageRecords(b)
  {
    MessageRecordsAppend(a, b);
  }

  /** No DOM id occurs twice. */
  ghost predicate UniqueIds(ms: seq<Message>) {
    forall i, j :: 0 <= i < j < |ms| ==> ms[i].id != ms[j].id
  }

  /** What one poll did: the seen-id set after it, the records it queued and how it ended. */
  datatype ScanResult = ScanResult(seen: set<string>, emitted: seq<Message>, outcome: PollOutcome)

  function Prepend(done: seq<Message>, r: ScanResult): ScanResult {
    r.(emitted := done + r.emitted)
  }

  /** What one pass of the loop did: the seen set after it, what it queued, and whether the loop ends there. */
  datatype Visited = Visited(seen: set<string>, queued: seq<Message>, halt: Option<PollOutcome>)

  lemma PrependAssoc(a: seq<Message>, b: seq<Message>, r: ScanResult)
    ensures Prepend(a, Prepend(b, r)) == Prepend(a + b, r)
  {
    assert a + (b + r.emitted) == (a + b) + r.emitted;
  }

  /** The seen set, queued records and outcomes after a sequence of polls. */
  datatype FeedResult = FeedResult(seen: set<string>, emitted: seq<Message>, outcomes: seq<PollOutcome>)

  /** Every queued message carries an id that was not seen before `r` and is seen after it. */
  ghost predicate FreshIds(r: ScanResult, seen: set<string>) {
    forall i :: 0 <= i < |r.emitted| ==> r.emitted[i].id in r.seen - seen
  }

  /** `list.reverse()`. */
  function Reverse<T>(s: seq<T>): (r: seq<T>)
    ensures |r| == |s|
    ensures forall i :: 0 <= i < |s| ==> r[i] == s[|s| - 1 - i]
  {
    if s == [] then [] else Reverse(s[1..]) + [s[0]]
  }

  lemma {:induction false} ReverseAppend<T>(a: seq<T>, b: seq<T>)
    ensures Reverse(a + b) == Reverse(b) + Reverse(a)
  {
    var l, r := Reverse(a + b), Reverse(b) + Reverse(a);
    assert |l| == |r|;
    forall i | 0 <= i < |l| ensures l[i] == r[i] {
      if i < |b| {
        assert r[i] == b[|b| - 1 - i];
      } else {
        assert r[i] == Reverse(a)[i - |b|];
      }
    }
  }
}
