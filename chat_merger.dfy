/**
 * `ChatMerger`: drains the browser scraper's queue and then the API poller's
 * queue and keeps the first message of each distinct text. The set of texts
 * seen is made anew on every call, so nothing carries over between calls.
 */
module ChatMerger {
  import opened Wrappers
  import opened Records
  import opened Queues

  /** The texts of a run of records, `""` standing for a missing `"message"` key. */
  function ContentsOf(ms: seq<Record>): set<string> {
    if ms == [] then {} else ContentsOf(ms[..|ms| - 1]) + {Content(ms[|ms| - 1])}
  }

  lemma {:induction false} ContentsOfMember(ms: seq<Record>, c: string)
    ensures c in ContentsOf(ms) <==> exists i :: 0 <= i < |ms| && Content(ms[i]) == c
  {
    if ms != [] {
      var init := ms[..|ms| - 1];
      ContentsOfMember(init, c);
      if c in ContentsOf(init) {
        var i :| 0 <= i < |init| && Content(init[i]) == c;
        assert Content(ms[i]) == c;
      }
      if exists i :: 0 <= i < |ms| && Content(ms[i]) == c {
        var i :| 0 <= i < |ms| && Content(ms[i]) == c;
        if i < |init| {
          assert Content(init[i]) == c;
        }
      }
    }
  }

  lemma {:induction false} ContentsOfAppend(a: seq<Record>, b: seq<Record>)
    ensures ContentsOf(a + b) == ContentsOf(a) + ContentsOf(b)
  {
    if b == [] {
      assert a + b == a;
    } else {
      var init := b[..|b| - 1];
      assert (a + b)[..|a + b| - 1] == a + init;
      ContentsOfAppend(a, init);
    }
  }

  /** The texts seen so far and the messages kept so far. */
  datatype Dedup = Dedup(seen: set<string>, unique: seq<Record>)

  /**
   * One drain loop over `ms`, starting from the texts `seen0`: a message is
   * kept, and its text marked seen, when its text has not been seen.
   */
  function Dedupe(ms: seq<Record>, seen0: set<string>): Dedup {
    if ms == [] then Dedup(seen0, [])
    else
      var d := Dedupe(ms[..|ms| - 1], seen0);
      var m := ms[|ms| - 1];
      if Content(m) in d.seen then d
      else Dedup(d.seen + {Content(m)}, d.unique + [m])
  }

  /** The seen set grows by every text drained. */
  lemma {:induction false} DedupeSeen(ms: seq<Record>, seen0: set<string>)
    ensures Dedupe(ms, seen0).seen == seen0 + ContentsOf(ms)
  {
    if ms != [] {
      DedupeSeen(ms[..|ms| - 1], seen0);
    }
  }

  /** The kept messages carry exactly the texts not seen before. */
  lemma {:induction false} DedupeKeepsNew(ms: seq<Record>, seen0: set<string>)
    ensures ContentsOf(Dedupe(ms, seen0).unique) == ContentsOf(ms) - seen0
  {
    if ms != [] {
      var init, m := ms[..|ms| - 1], ms[|ms| - 1];
      DedupeKeepsNew(init, seen0);
      DedupeSeen(init, seen0);
      var d := Dedupe(init, seen0);
      if Content(m) !in d.seen {
        var u := d.unique + [m];
        assert u[..|u| - 1] == d.unique;
      }
    }
  }

  /** No two kept messages share a text. */
  lemma {:induction false} DedupeDistinct(ms: seq<Record>, seen0: set<string>)
    ensures forall i, j :: 0 <= i < j < |Dedupe(ms, seen0).unique| ==>
      Content(Dedupe(ms, seen0).unique[i]) != Content(Dedupe(ms, seen0).unique[j])
  {
    if ms != [] {
      var init, m := ms[..|ms| - 1], ms[|ms| - 1];
      DedupeDistinct(init, seen0);
      DedupeKeepsNew(init, seen0);
      DedupeSeen(init, seen0);
      var d := Dedupe(init, seen0);
      if Content(m) !in d.seen {
        var u := d.unique + [m];
        forall i | 0 <= i < |d.unique| ensures Content(u[i]) != Content(m) {
          assert u[i] == d.unique[i];
          ContentsOfMember(d.unique, Content(u[i]));
        }
      }
    }
  }

  /** Draining one more message keeps it exactly when its text is new. */
  lemma DedupeSnoc(ms: seq<Record>, m: Record, seen0: set<string>)
    ensures var d := Dedupe(ms, seen0);
      Dedupe(ms + [m], seen0) == if Content(m) in d.seen then d else Dedup(d.seen + {Content(m)}, d.unique + [m])
  {
    var s := ms + [m];
    assert s[..|s| - 1] == ms && s[|s| - 1] == m;
  }

  /** Draining `a` and then `b` with the same seen set is draining `a + b`. */
  lemma {:induction false} DedupeAppend(a: seq<Record>, b: seq<Record>, seen0: set<string>)
    ensures Dedupe(a + b, seen0).seen == Dedupe(b, Dedupe(a, seen0).seen).seen
    ensures Dedupe(a + b, seen0).unique == Dedupe(a, seen0).unique + Dedupe(b, Dedupe(a, seen0).seen).unique
  {
    var da := Dedupe(a, seen0);
    if b == [] {
      assert a + b == a;
    } else {
      var init, m := b[..|b| - 1], b[|b| - 1];
      assert (a + b)[..|a + b| - 1] == a + init;
      assert (a + b)[|a + b| - 1] == m;
      DedupeAppend(a, init, seen0);
      var left := Dedupe(a + init, seen0);
      var right := Dedupe(init, da.seen);
      assert left.seen == right.seen && left.unique == da.unique + right.unique;
      if Content(m) !in right.seen {
        assert Dedupe(b, da.seen).unique == right.unique + [m];
        assert Dedupe(a + b, seen0).unique == left.unique + [m];
        assert (da.unique + right.unique) + [m] == da.unique + (right.unique + [m]);
      }
    }
  }

  /** `u` occurs in `s` in order, possibly with gaps. */
  predicate IsSubsequence(u: seq<Record>, s: seq<Record>) {
    if u == [] then true
    else if s == [] then false
    else if u[|u| - 1] == s[|s| - 1] then IsSubsequence(u[..|u| - 1], s[..|s| - 1])
    else IsSubsequence(u, s[..|s| - 1])
  }

  lemma {:induction false} SubsequenceDropLast(u: seq<Record>, s: seq<Record>)
    requires u != [] && IsSubsequence(u, s)
    ensures IsSubsequence(u[..|u| - 1], s)
    decreases |s|, 0
  {
    if u[|u| - 1] == s[|s| - 1] {
      SubsequenceExtend(u[..|u| - 1], s[..|s| - 1], s[|s| - 1]);
      assert s[..|s| - 1] + [s[|s| - 1]] == s;
    } else {
      SubsequenceDropLast(u, s[..|s| - 1]);
      SubsequenceExtend(u[..|u| - 1], s[..|s| - 1], s[|s| - 1]);
      assert s[..|s| - 1] + [s[|s| - 1]] == s;
    }
  }

  lemma {:induction false} SubsequenceExtend(u: seq<Record>, s: seq<Record>, x: Record)
    requires IsSubsequence(u, s)
    ensures IsSubsequence(u, s + [x])
    decreases |s|, 1
  {
    var t := s + [x];
    assert t[..|t| - 1] == s;
    if u != [] && u[|u| - 1] == x {
      SubsequenceDropLast(u, s);
    }
  }

  /** The kept messages are the drained ones in the order they were drained. */
  lemma {:induction false} DedupeSubsequence(ms: seq<Record>, seen0: set<string>)
    ensures IsSubsequence(Dedupe(ms, seen0).unique, ms)
  {
    if ms != [] {
      var init := ms[..|ms| - 1];
      DedupeSubsequence(init, seen0);
      var d := Dedupe(init, seen0);
      if Content(ms[|ms| - 1]) in d.seen {
        SubsequenceGrow(d.unique, ms);
      } else {
        var u := d.unique + [ms[|ms| - 1]];
        assert u[..|u| - 1] == d.unique;
      }
    }
  }

  /** A subsequence of all but the last element is a subsequence of the whole. */
  lemma SubsequenceGrow(u: seq<Record>, s: seq<Record>)
    requires s != [] && IsSubsequence(u, s[..|s| - 1])
    ensures IsSubsequence(u, s)
  {
    SubsequenceExtend(u, s[..|s| - 1], s[|s| - 1]);
    assert s[..|s| - 1] + [s[|s| - 1]] == s;
  }

  /** What a producer's queue holds: nothing when the producer is `None`. */
  function QueuedOr(q: Option<seq<Record>>): seq<Record> {
    if q.Some? then q.value else []
  }

  /** `get_unique_messages()` on the two producers' queue contents. */
  function UniqueMessages(scraper: Option<seq<Record>>, api: Option<seq<Record>>): seq<Record> {
    Dedupe(QueuedOr(scraper) + QueuedOr(api), {}).unique
  }

  /**
   * The result holds each text of the two queues exactly once, in drain
   * order, scraper messages first.
   */
  lemma UniqueMessagesShape(scraper: Option<seq<Record>>, api: Option<seq<Record>>)
    ensures var all := QueuedOr(scraper) + QueuedOr(api);
      var u := UniqueMessages(scraper, api);
      && ContentsOf(u) == ContentsOf(all)
      && (forall i, j :: 0 <= i < j < |u| ==> Content(u[i]) != Content(u[j]))
      && IsSubsequence(u, all)
  {
    DedupeKeepsNew(QueuedOr(scraper) + QueuedOr(api), {});
    DedupeDistinct(QueuedOr(scraper) + QueuedOr(api), {});
    DedupeSubsequence(QueuedOr(scraper) + QueuedOr(api), {});
  }

  /**
   * The scraper's messages are taken first; an API message whose text the
   * scraper also had is dropped, so the scraper's copy is the one kept.
   */
  lemma ScraperCopyWins(scraper: seq<Record>, api: seq<Record>)
    ensures var fromScraper := Dedupe(scraper, {}).unique;
      var u := UniqueMessages(Some(scraper), Some(api));
      && |fromScraper| <= |u| && u[..|fromScraper|] == fromScraper
      && (forall j :: |fromScraper| <= j < |u| ==> Content(u[j]) !in ContentsOf(scraper))
  {
    var fromScraper := Dedupe(scraper, {}).unique;
    var rest := Dedupe(api, Dedupe(scraper, {}).seen).unique;
    DedupeAppend(scraper, api, {});
    var u := UniqueMessages(Some(scraper), Some(api));
    assert u == fromScraper + rest;
    assert u[..|fromScraper|] == fromScraper;
    LaterTextsNew(scraper, api);
    forall j | |fromScraper| <= j < |u| ensures Content(u[j]) !in ContentsOf(scraper) {
      assert u[j] == rest[j - |fromScraper|];
    }
  }

  /** What the second drain keeps carries no text of the first. */
  lemma LaterTextsNew(a: seq<Record>, b: seq<Record>)
    ensures var rest := Dedupe(b, Dedupe(a, {}).seen).unique;
      forall k :: 0 <= k < |rest| ==> Content(rest[k]) !in ContentsOf(a)
  {
    var seen := Dedupe(a, {}).seen;
    DedupeSeen(a, {});
    var rest := Dedupe(b, seen).unique;
    DedupeKeepsNew(b, seen);
    forall k | 0 <= k < |rest| ensures Content(rest[k]) !in ContentsOf(a) {
      ContentsOfMember(rest, Content(rest[k]));
    }
  }

  /** The author plays no part: the same text from two authors is kept once. */
  lemma AuthorIgnored(first: Record, second: Record)
    requires Content(first) == Content(second)
    ensures UniqueMessages(Some([first]), Some([second])) == [first]
  {
    assert [first] + [second] == [first, second];
    assert [first, second][..1] == [first];
    assert [first][..0] == [];
    assert Dedupe([first], {}) == Dedup({Content(first)}, [first]);
    assert Dedupe([first, second], {}) == Dedup({Content(first)}, [first]);
  }

  /** `_hash_message`: md5 (a parameter) of the author's and the text's UTF-8 bytes, one after the other; a missing key raises. */
  function HashMessage(md5: string -> string, m: Record): (h: Option<string>)
    ensures h.Some? <==> "author" in m && "message" in m
  {
    if "author" in m && "message" in m then Some(md5(m["author"] + m["message"])) else None
  }

  /** The hash cannot tell where the author ends and the text begins. */
  lemma HashIgnoresBoundary(md5: string -> string, a: Record, b: Record)
    requires "author" in a && "message" in a && "author" in b && "message" in b
    requires a["author"] + a["message"] == b["author"] + b["message"]
    ensures HashMessage(md5, a) == HashMessage(md5, b)
  {
  }

  /** The queues a merger may drain: those of the producers that are present. */
  function Present(q: Option<Queue<Record>>): set<Queue<Record>> {
    if q.Some? then {q.value} else {}
  }

  function QueueContents(q: Option<Queue<Record>>): Option<seq<Record>>
    reads Present(q)
  {
    if q.Some? then Some(q.value.items) else None
  }

  class ChatMerger {
    /** The scraper's and the API poller's message queues, or `None` for an absent producer. */
    const chatScraper: Option<Queue<Record>>
    const youtubeChat: Option<Queue<Record>>

    constructor (chatScraper: Option<Queue<Record>>, youtubeChat: Option<Queue<Record>>)
      ensures this.chatScraper == chatScraper && this.youtubeChat == youtubeChat
    {
      this.chatScraper := chatScraper;
      this.youtubeChat := youtubeChat;
    }

    /** The `while not q.empty()` loop of `get_unique_messages`, for one queue. */
    static method DrainUnique(q: Queue<Record>, seen0: set<string>, unique0: seq<Record>)
      returns (seen: set<string>, unique: seq<Record>)
      modifies q
      ensures q.items == []
      ensures seen == Dedupe(old(q.items), seen0).seen
      ensures unique == unique0 + Dedupe(old(q.items), seen0).unique
    {
      ghost var queued := q.items;
      ghost var taken := 0;
      seen, unique := seen0, unique0;
      var empty := q.Empty();
      while !empty
        invariant 0 <= taken <= |queued| && q.items == queued[taken..]
        invariant empty <==> q.items == []
        invariant seen == Dedupe(queued[..taken], seen0).seen
        invariant unique == unique0 + Dedupe(queued[..taken], seen0).unique
        decreases |q.items|
      {
        var message := q.Get();
        var content := Content(message);
        assert queued[..taken + 1] == queued[..taken] + [message];
        DedupeSnoc(queued[..taken], message, seen0);
        if content !in seen {
          seen := seen + {content};
          unique := unique + [message];
        }
        taken := taken + 1;
        empty := q.Empty();
      }
      assert queued[..taken] == queued;
    }

    /** `get_unique_messages()`; a queue given to both producers is drained once. */
    method GetUniqueMessages() returns (unique: seq<Record>)
      modifies Present(chatScraper), Present(youtubeChat)
      ensures chatScraper.Some? ==> chatScraper.value.items == []
      ensures youtubeChat.Some? ==> youtubeChat.value.items == []
      ensures unique == UniqueMessages(old(QueueContents(chatScraper)),
        if chatScraper.Some? && youtubeChat.Some? && chatScraper.value == youtubeChat.value
        then Some([]) else old(QueueContents(youtubeChat)))
    {
      ghost var fromScraper := QueuedOr(QueueContents(chatScraper));
      ghost var fromApi := QueuedOr(if chatScraper.Some? && youtubeChat.Some? && chatScraper.value == youtubeChat.value
        then Some([]) else QueueContents(youtubeChat));
      var seen: set<string> := {};
      unique := [];
      if chatScraper.Some? {
        seen, unique := DrainUnique(chatScraper.value, seen, unique);
      }
      assert seen == Dedupe(fromScraper, {}).seen && unique == Dedupe(fromScraper, {}).unique;
      assert youtubeChat.Some? ==> QueuedOr(QueueContents(youtubeChat)) == fromApi;
      if youtubeChat.Some? {
        seen, unique := DrainUnique(youtubeChat.value, seen, unique);
      }
      assert unique == Dedupe(fromScraper, {}).unique + Dedupe(fromApi, Dedupe(fromScraper, {}).seen).unique;
      DedupeAppend(fromScraper, fromApi, {});
    }

    /** `_extract_messages_from_queue(q)`: the queue's contents, oldest first; the queue is left empty. */
    static method ExtractMessagesFromQueue(q: Queue<Record>) returns (messages: seq<Record>)
      modifies q
      ensures messages == old(q.items) && q.items == []
    {
      ghost var all := q.items;
      messages := [];
      var empty := q.Empty();
      while !empty
        invariant |messages| <= |all|
        invariant messages == all[..|messages|] && q.items == all[|messages|..]
        invariant empty <==> q.items == []
        decreases |q.items|
      {
        var m := q.Get();
        messages := messages + [m];
        empty := q.Empty();
      }
      assert all[..|messages|] == all;
    }
  }
}
