/**
 * The values that travel between the chat components: the message dictionaries
 * put on the producers' queues (`{'author': ..., 'timestamp': ..., 'message': ...}`)
 * and the `{"role": ..., "content": ...}` entries of a chat-completion prompt.
 */
module Records {

  /** A queued chat message: a Python dictionary from key to text. */
  type Record = map<string, string>

  /** The dictionary literal `{'author': a, 'timestamp': t, 'message': m}`. */
  function MakeRecord(author: string, timestamp: string, message: string): (r: Record)
    ensures r.Keys == {"author", "timestamp", "message"}
    ensures r["author"] == author && r["timestamp"] == timestamp && r["message"] == message
  {
    map["author" := author, "timestamp" := timestamp, "message" := message]
  }

  /** `message.get("message", "")`: the text of a record, "" when the key is missing. */
  function Content(r: Record): string {
    if "message" in r then r["message"] else ""
  }

  /** A record a producer put on its queue, with the platform or DOM id it was recorded under. */
  datatype Emitted = Emitted(id: string, record: Record)

  /** The records of a run of emitted messages, in order: what lands on the queue. */
  function RecordsOf(es: seq<Emitted>): (rs: seq<Record>)
    ensures |rs| == |es|
  {
    if es == [] then [] else [es[0].record] + RecordsOf(es[1..])
  }

  /** Position by position, the records are those of the emitted messages. */
  lemma {:induction false} RecordsOfIndex(es: seq<Emitted>, i: int)
    requires 0 <= i < |es|
    ensures RecordsOf(es)[i] == es[i].record
  {
    if i > 0 {
      RecordsOfIndex(es[1..], i - 1);
    }
  }

  lemma {:induction false} RecordsOfAppend(a: seq<Emitted>, b: seq<Emitted>)
    ensures RecordsOf(a + b) == RecordsOf(a) + RecordsOf(b)
  {
    if a == [] {
      assert a + b == b;
    } else {
      assert (a + b)[0] == a[0] && (a + b)[1..] == a[1..] + b;
      assert RecordsOf(a + b) == [a[0].record] + RecordsOf(a[1..] + b);
      RecordsOfAppend(a[1..], b);
      assert [a[0].record] + (RecordsOf(a[1..]) + RecordsOf(b)) == ([a[0].record] + RecordsOf(a[1..])) + RecordsOf(b);
    }
  }

  /** Queueing `a` and then `b` onto `q` queues the records of `a + b`. */
  lemma QueueEmittedAppend(q: seq<Record>, a: seq<Emitted>, b: seq<Emitted>)
    ensures q + RecordsOf(a + b) == (q + RecordsOf(a)) + RecordsOf(b)
  {
    RecordsOfAppend(a, b);
  }

  /** The ids of a run of emitted messages, as a set. */
  function IdSet(es: seq<Emitted>): (ids: set<string>)
    ensures forall i :: 0 <= i < |es| ==> es[i].id in ids
    ensures forall x :: x in ids ==> exists i :: 0 <= i < |es| && es[i].id == x
  {
    set i | 0 <= i < |es| :: es[i].id
  }

  /** No id occurs twice. */
  ghost predicate DistinctIds(es: seq<Emitted>) {
    forall i, j :: 0 <= i < j < |es| ==> es[i].id != es[j].id
  }

  lemma IdSetAppend(a: seq<Emitted>, b: seq<Emitted>)
    ensures IdSet(a + b) == IdSet(a) + IdSet(b)
  {
    var e := a + b;
    forall x | x in IdSet(e) ensures x in IdSet(a) + IdSet(b) {
      var i :| 0 <= i < |e| && e[i].id == x;
      if i < |a| {
        assert e[i] == a[i];
      } else {
        assert e[i] == b[i - |a|];
      }
    }
    forall i | 0 <= i < |a| ensures a[i].id in IdSet(e) {
      assert e[i] == a[i];
    }
    forall i | 0 <= i < |b| ensures b[i].id in IdSet(e) {
      assert e[|a| + i] == b[i];
    }
  }

  /** Two runs without repeated ids, the second sharing none with the first, make one. */
  lemma DistinctAppend(a: seq<Emitted>, b: seq<Emitted>)
    requires DistinctIds(a) && DistinctIds(b)
    requires forall i :: 0 <= i < |b| ==> b[i].id !in IdSet(a)
    ensures DistinctIds(a + b)
  {
    var e := a + b;
    forall i, j | 0 <= i < j < |e| ensures e[i].id != e[j].id {
      if j < |a| {
        assert e[i] == a[i] && e[j] == a[j];
      } else if i < |a| {
        assert e[i] == a[i] && e[j] == b[j - |a|];
      } else {
        assert e[i] == b[i - |a|] && e[j] == b[j - |a|];
      }
    }
  }

  /** The `"role"` of a chat-completion message. */
  datatype Role = System | User

  /** `{"role": role, "content": content}`. */
  datatype ChatEntry = ChatEntry(role: Role, content: string)
}
