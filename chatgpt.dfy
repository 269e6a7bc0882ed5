/**
 * `ChatGPT.respond_to`: the prompt list sent to the chat-completion model and
 * the text taken from its reply. The model call is a parameter.
 */
module ChatGpt {
  import opened Wrappers
  import opened PyStrings
  import opened Records

  /** A chat-history entry `(author, timestamp, message)`. */
  type HistoryEntry = (string, string, string)

  /** `if self.prompt_prefix:` — a prefix that is set and not empty. */
  predicate HasPrefix(promptPrefix: Option<string>) {
    promptPrefix.Some? && promptPrefix.value != ""
  }

  /** How many entries come before the history: one for the system prompt, if any. */
  function HistoryStart(promptPrefix: Option<string>): (n: nat)
    ensures n <= 1 && (n == 1 <==> HasPrefix(promptPrefix))
  {
    if HasPrefix(promptPrefix) then 1 else 0
  }

  /** `if chat_history:` — `None` and the empty list both contribute nothing. */
  function HistoryOf(history: Option<seq<HistoryEntry>>): (h: seq<HistoryEntry>)
    ensures history.None? ==> h == []
    ensures history.Some? ==> h == history.value
  {
    if history.Some? then history.value else []
  }

  /** The user entry for one past message: "author: message", the timestamp dropped. */
  function PastEntry(e: HistoryEntry): ChatEntry {
    ChatEntry(User, e.0 + ": " + e.2)
  }

  /** The messages list `respond_to` assembles before calling the model. */
  method BuildMessages(promptPrefix: Option<string>, history: Option<seq<HistoryEntry>>, chatMessage: string)
    returns (messages: seq<ChatEntry>)
    ensures |messages| == HistoryStart(promptPrefix) + |HistoryOf(history)| + 1
    ensures HasPrefix(promptPrefix) ==> messages[0] == ChatEntry(System, promptPrefix.value)
    ensures forall k :: HistoryStart(promptPrefix) <= k < |messages| ==> messages[k].role == User
    ensures forall k :: 0 <= k < |HistoryOf(history)| ==>
      messages[HistoryStart(promptPrefix) + k] == PastEntry(HistoryOf(history)[k])
    ensures messages[|messages| - 1] == ChatEntry(User, chatMessage)
  {
    messages := [];
    if promptPrefix.Some? && promptPrefix.value != "" {
      messages := messages + [ChatEntry(System, promptPrefix.value)];
    }
    var start := |messages|;
    if history.Some? && history.value != [] {
      var past := history.value;
      for i := 0 to |past|
        invariant |messages| == start + i
        invariant HasPrefix(promptPrefix) ==> messages[0] == ChatEntry(System, promptPrefix.value)
        invariant forall k :: 0 <= k < i ==> messages[start + k] == PastEntry(past[k])
        invariant forall k :: start <= k < |messages| ==> messages[k].role == User
      {
        messages := messages + [ChatEntry(User, past[i].0 + ": " + past[i].2)];
      }
    }
    messages := messages + [ChatEntry(User, chatMessage)];
  }

  /**
   * `respond_to(author, chat_message, chat_history)`: the prompt list and the
   * model's reply content with surrounding whitespace removed. The author of
   * the latest message is not sent.
   */
  method RespondTo(promptPrefix: Option<string>, author: string, chatMessage: string,
                   history: Option<seq<HistoryEntry>>, complete: seq<ChatEntry> -> string)
    returns (messages: seq<ChatEntry>, text: string)
    ensures |messages| == HistoryStart(promptPrefix) + |HistoryOf(history)| + 1
    ensures HasPrefix(promptPrefix) ==> messages[0] == ChatEntry(System, promptPrefix.value)
    ensures forall k :: HistoryStart(promptPrefix) <= k < |messages| ==> messages[k].role == User
    ensures forall k :: 0 <= k < |HistoryOf(history)| ==>
      messages[HistoryStart(promptPrefix) + k] == PastEntry(HistoryOf(history)[k])
    ensures messages[|messages| - 1] == ChatEntry(User, chatMessage)
    ensures exists i :: StrippedAt(complete(messages), text, i)
    ensures text != [] ==> !IsSpace(text[0]) && !IsSpace(text[|text| - 1])
  {
    messages := BuildMessages(promptPrefix, history, chatMessage);
    text := Strip(complete(messages));
  }
}
