# RFYTGPTBot chat pipeline, modelled in Dafny

RFYTGPTBot watches the live chat of a YouTube stream and answers it. Three
fetchers collect chat messages:

- a browser scraper of the popout chat page, in its current version and in an
  older version kept at the repository root;
- a poller of the YouTube Data API;
- the stand-alone `LiveStreamChatBot` of `main.py`, which pages the API and
  keeps its own timestamp bookmark.

The two scrapers and the API poller put `{author, timestamp, message}`
dictionaries on a queue; `LiveStreamChatBot` queues `(author, message)` pairs.
The chat merger drains the queues and drops messages whose text it has already
seen. A response module then shapes the answer:

- a moderator line when the profanity filter fires;
- an echo from the base bot;
- a chat completion from the ChatGPT bot, given the history;
- `_format_response` is a helper that `respond_to` no longer calls (the call
  at chat_response_modules/chatgpt.py:37 is commented out). It cuts an answer
  at the last space within its first 195 characters, if there is one, and
  otherwise keeps those 195 characters whole.

A maintenance helper, `cleanup_folder`, deletes the oldest files of a folder
beyond a maximum count.

The model has one module per source concern.

- Pure code is written as functions and lemmas. This covers timestamp
  conversion and rounding, container scans, the API fetch, the error
  escalation, backward acceptance, response formatting, de-duplication and
  folder selection.
- Each object whose fields the source updates becomes a class.
  - The classes are `YoutubeChatScraper` (both versions), `YouTubeChat`,
    `LiveStreamChatBot`, `ChatMerger` and `Folder`, plus a `Queue` for
    `queue.Queue`.
  - Each method is proved equal, on every input, to the function that
    specifies it.
- External effects are parameters:
  - the browser is an abstract page of containers whose fields may be stale,
    missing or readable;
  - the API is a sequence of replies;
  - the wall clock is an integer of seconds;
  - md5, the OpenAI call and the profanity test are functions passed in.

Timestamps are whole seconds since the epoch in UTC.

The classes model the code as it is written. Where the code evidently
misbehaves, the model says so in a lemma. Beside it sits a separate
"intended" definition with its property proved; these are listed under
"## Findings". The intended definitions are reference definitions: the
classes do not use them.

## Model

| member | source | states |
|---|---|---|
| Clock.To24Hour | chat_fetchers/yt_chat_scraper.py:80-83 | definition only: add 12 to a PM hour other than 12, then turn an AM 12 into 0, both by substring tests on the second word; `To24HourClockFace` states its effect |
| Clock.ParseClock | chat_fetchers/yt_chat_scraper.py:77-83 | definition only: two words, the first split on `:` into two integers, then `To24Hour`; any other shape is the `ValueError` (`None`); `ParseIntNatToString` and `To24HourClockFace` state what it reads |
| Clock.To24HourClockFace | chat_fetchers/yt_chat_scraper.py:80-83 | on hours 1..12, "AM" maps 12 to 0 and keeps the rest; "PM" keeps 12 and adds 12 to the rest, so AM hours land in 0..11 and PM hours in 12..23 |
| Clock.AtFields | chat_fetchers/yt_chat_scraper.py:89 | `replace(hour, minute, second=0)` on a day gives an instant whose day, hour, minute and second read back as that day, hour, minute and 0 |
| Clock.RoundToMinute | chat_fetchers/yt_chat_scraper.py:93-101 | the rounded instant is a whole minute within 30 seconds of the input |
| Clock.RoundToMinuteIdempotent | chat_fetchers/yt_chat_scraper.py:93-101 | rounding an already rounded instant leaves it unchanged |
| Clock.RoundToMinuteNearest | chat_fetchers/yt_chat_scraper.py:98 | no whole minute is closer to the input than the rounded one |
| Clock.RoundToMinuteHalfToEven | chat_fetchers/yt_chat_scraper.py:98 | an instant exactly 30 seconds past a minute goes to the even minute, as Python's `round` does |
| Clock.RoundToMinuteMonotone | chat_fetchers/yt_chat_scraper.py:98 | rounding preserves order |
| Clock.IsoFormat | chat_fetchers/yt_chat_scraper.py:90 | definition only: `isoformat()` of a UTC instant, "YYYY-MM-DDTHH:MM:SS+00:00" with zero-padded fields |
| PyStrings.IsSpace | chat_fetchers/yt_chat_scraper.py:230-238 | definition only: the code points Python's `str.isspace()` accepts, which `strip()` drops |
| PyStrings.Strip | chat_fetchers/yt_chat_scraper.py:230-238 | `str.strip()`: the result is a contiguous piece of the input with only whitespace removed on either side, and does not start or end with whitespace |
| PyStrings.LStrip | chat_fetchers/yt_chat_scraper.py:230-238 | `lstrip()`: a suffix of the input; everything dropped is whitespace and the result does not start with whitespace |
| PyStrings.RStrip | chat_fetchers/yt_chat_scraper.py:230-238 | `rstrip()`: a prefix of the input; everything dropped is whitespace and the result does not end with whitespace |
| PyStrings.StripIdempotent | chat_fetchers/yt_chat_scraper.py:230-238 | stripping twice is stripping once |
| PyStrings.Split | chat_fetchers/yt_chat_scraper.py:77 | `str.split()` yields non-empty words without whitespace |
| PyStrings.SplitOn | chat_fetchers/yt_chat_scraper.py:78 | `str.split(':')` yields at least one part, none containing the separator |
| PyStrings.ParseIntNatToString | chat_fetchers/yt_chat_scraper.py:78 | `int()` reads back any decimal numeral it is shown |
| PyStrings.ParseInt | chat_fetchers/yt_chat_scraper.py:78 | definition only: `int()` of an optional sign and ASCII decimal digits, anything else the `ValueError` (`None`); `ParseIntNatToString` states the round trip |
| PyStrings.LexLess | main.py:84 | definition only: Python's `<` on strings, by code point, a proper prefix being smaller; `LexLessIrreflexive`, `LexLessTransitive` and `LexLessAsymmetric` state that it is a strict order |
| PyStrings.RFind | chat_response_modules/base.py:17 | `str.rfind`: -1 exactly when the character is absent, otherwise the index of its last occurrence |
| Records.MakeRecord | chat_fetchers/yt_api_chat.py:61-65 | the queued dictionary has exactly the keys author, timestamp and message, holding the given values |
| Records.Content | lib/chat_merger.py:26 | definition only: `message.get("message", "")`, the text or "" when the key is absent |
| Queues.Queue.constructor | chat_fetchers/yt_chat_scraper.py:110 | `queue.Queue()` starts empty |
| Queues.Queue.Put | chat_fetchers/yt_chat_scraper.py:257-261 | `put` appends the item at the back |
| Queues.Queue.Get | lib/chat_merger.py:25 | `get` on a non-empty queue returns the oldest item and removes exactly it |
| Queues.Queue.Empty | lib/chat_merger.py:24 | `empty()` is true exactly when no item is queued |
| Dom.ExtractFields | chat_fetchers/yt_chat_scraper.py:230-238 | a container is read only when author, timestamp and message are all present; the fields are stripped and the timestamp converted; a missing element, a bad timestamp or a lost browser is an error, and a lost browser on the author is a connection error |
| Dom.AfterScroll | chat_fetchers/yt_chat_scraper.py:276-281 | the scrolling runs only after a container loop that did not raise; it completes exactly when the scroller was found and the browser answered; a missing `item-scroller` is `ScrollerMissing`, a lost browser a connection error |
| Dom.MessageRecords | chat_fetchers/yt_chat_scraper.py:257-261 | one dictionary per queued message, in order, holding its author, its time in ISO form and its text |
| Dom.MessageRecordsAppend | chat_fetchers/yt_chat_scraper.py:225-261 | queueing two runs of messages one after the other queues the dictionaries of the joined run |
| Dom.Reverse | chat_fetchers/yt_chat_scraper.py:223 | `list.reverse()`: position i of the result holds position n-1-i of the input |
| Dom.ReverseAppend | chat_fetchers/yt_chat_scraper.py:223 | reversing a concatenation reverses and swaps its parts |
| Escalation.Restart | chat_fetchers/yt_chat_scraper.py:348-358 | definition only: `restart()` on counter and flags, marking the attempt, zeroing the counter, then clearing and at once setting `stop_event`; `RestartEndsPolling` states the result |
| Escalation.AfterPollError | chat_fetchers/yt_chat_scraper.py:300-309 | definition only: count the failure, restart at the limit before any restart, stop at the limit after one; `AfterPollErrorCounts`, `AfterPollErrorFirstLimit` and `AfterPollErrorSecondLimit` state its three cases |
| Escalation.Failures | chat_fetchers/yt_chat_scraper.py:291-309 | definition only: `AfterPollError` applied n times; `FailuresBelowLimit`, `FailuresFrom` and `FifthFailureEndsPolling` state where it leads |
| Escalation.AfterPollErrorCounts | chat_fetchers/yt_chat_scraper.py:300 | below the limit a failed poll only adds one to `error_count` |
| Escalation.AfterPollErrorFirstLimit | chat_fetchers/yt_chat_scraper.py:300-309 | reaching `MAX_ERRORS` before any restart calls `restart()`: the counter is 0, the attempt is marked and `stop_event` is set |
| Escalation.AfterPollErrorSecondLimit | chat_fetchers/yt_chat_scraper.py:307-309 | reaching the limit after a restart sets `stop_event` and keeps the count |
| Escalation.FailuresBelowLimit | chat_fetchers/yt_chat_scraper.py:291-300 | fewer than five failures from the start leave the count at their number and the loop polling |
| Escalation.FailuresFrom | chat_fetchers/yt_chat_scraper.py:291-300 | from any count below the limit, failures that stay below it just add up |
| Escalation.RestartEndsPolling | chat_fetchers/yt_chat_scraper.py:348-358 | after `restart()` the counter is 0, the attempt is marked and `stop_event` is set, so the loop condition fails |
| Escalation.FifthFailureEndsPolling | chat_fetchers/yt_chat_scraper.py:291-309 | five failures from the start leave (0, restarted, stopped): polling ends at the first restart |
| Escalation.RestartIntended | chat_fetchers/yt_chat_scraper.py:348-358 | definition only: the evidently intended `restart()`: counter 0, attempt marked, `stop_event` left clear |
| Escalation.AfterPollErrorIntended | chat_fetchers/yt_chat_scraper.py:300-309 | definition only: `AfterPollError` with the intended restart |
| Escalation.FailuresIntended | chat_fetchers/yt_chat_scraper.py:291-309 | definition only: the intended step applied n times; `IntendedRestartKeepsPolling`, `SecondLimitStops`, `IntendedSplit` and `IntendedFrom` state where it leads |
| Escalation.IntendedRestartKeepsPolling | chat_fetchers/yt_chat_scraper.py:302-309 | with a restart that leaves `stop_event` clear, polling goes on through the first nine failures, the counter starting over after the fifth |
| Escalation.SecondLimitStops | chat_fetchers/yt_chat_scraper.py:307-309 | with the intended restart, the tenth failure stops the loop with the count at the limit |
| Escalation.IntendedSplit | chat_fetchers/yt_chat_scraper.py:291-309 | running a+b intended failures is running a, then b |
| Escalation.IntendedFrom | chat_fetchers/yt_chat_scraper.py:300-309 | the state after n intended failures from a polling state, up to the limit |
| ChatScraper.ConvertTimestamp | chat_fetchers/yt_chat_scraper.py:75-90 | an "H:MM AM/PM" label converts exactly when it parses to an hour below 24 and a minute below 60; the result has that hour and minute, 0 seconds, and lies on today's date unless the hour is later than the current hour, then on yesterday's |
| ChatScraper.ConvertTimestampWindow | chat_fetchers/yt_chat_scraper.py:86-89 | a converted time lies within the 24 hours that end when the current clock hour ends |
| ChatScraper.ExtractAt | chat_fetchers/yt_chat_scraper.py:229-238 | definition only: `ExtractFields` with timestamps converted by `ConvertTimestamp` at the poll's wall clock |
| ChatScraper.Reader | chat_fetchers/yt_chat_scraper.py:229-238 | definition only: the container reader of a poll at a given wall clock, `ExtractAt` at that instant |
| ChatScraper.Admitted | chat_fetchers/yt_chat_scraper.py:243-255 | definition only: the message's rounded minute is not before the rounded launch minute, and the author is not the bot |
| ChatScraper.Step | chat_fetchers/yt_chat_scraper.py:225-266 | one pass of the container loop only adds ids to the seen set |
| ChatScraper.Scan | chat_fetchers/yt_chat_scraper.py:225-266 | the container loop only adds ids to the seen set |
| ChatScraper.ScanIdsFresh | chat_fetchers/yt_chat_scraper.py:228-229 | every message a poll queues has an id that was not seen before the poll and is seen after it |
| ChatScraper.ScanIdsDistinct | chat_fetchers/yt_chat_scraper.py:228-229 | a poll never queues two messages with the same id |
| ChatScraper.ScanAdvance | chat_fetchers/yt_chat_scraper.py:225-266 | the scan of a suffix is one step followed by the scan of the rest, or ends at the step |
| ChatScraper.Candidate | chat_fetchers/yt_chat_scraper.py:227-261 | a container yields a message exactly when it has an id, its fields are readable and it passes the launch-time and bot filters; the message carries those fields |
| ChatScraper.ScanEmittedSound | chat_fetchers/yt_chat_scraper.py:227-261 | every queued message comes from an admissible container of the page, and its id was not seen before |
| ChatScraper.ScanStopsAtSeen | chat_fetchers/yt_chat_scraper.py:228-263 | once the scan reaches an id already seen it stops, so whatever follows makes no difference |
| ChatScraper.RescanEmitsNothing | chat_fetchers/yt_chat_scraper.py:225-263 | scanning the same containers again with their ids seen queues and marks nothing; it completes unless reading the newest id lost the browser, and then the first scan ended with a connection error too |
| ChatScraper.LostMidScan | chat_fetchers/yt_chat_scraper.py:225-296 | when the browser is lost reading the id after a new, admitted container, the poll keeps that container's message on the queue and its id seen, then raises a connection error |
| ChatScraper.NewIdMarked | chat_fetchers/yt_chat_scraper.py:228-261 | a new id is marked seen before its fields are read, even if it is then filtered out; its message is queued exactly when it is readable and admitted |
| ChatScraper.ChatData | chat_fetchers/yt_chat_scraper.py:213-281 | an unreachable page is a connection error and no containers an exception, neither touching state; otherwise the reversed containers are scanned, a browser lost during the scan raising a connection error after what was queued so far, and a completed scan ends as `AfterScroll` says |
| ChatScraper.ChatDataIgnoresOlder | chat_fetchers/yt_chat_scraper.py:223-263 | containers older than a seen one never influence a poll |
| ChatScraper.RepollEmitsNothing | chat_fetchers/yt_chat_scraper.py:228-263 | polling the same page twice queues nothing the second time |
| ChatScraper.Feed | chat_fetchers/yt_chat_scraper.py:291-293 | n successive polls give one outcome each |
| ChatScraper.Run | chat_fetchers/yt_chat_scraper.py:291-309 | the polling loop runs no more polls than it has outcomes |
| ChatScraper.RunSnoc | chat_fetchers/yt_chat_scraper.py:291-309 | a loop that has not ended takes the next outcome through the `except` branch and re-tests its condition |
| ChatScraper.RunWithinLimit | chat_fetchers/yt_chat_scraper.py:291-309 | the error counter never exceeds `MAX_ERRORS` |
| ChatScraper.AfterPoll | chat_fetchers/yt_chat_scraper.py:292-309 | definition only: a completed poll changes nothing; a connection error, or a `stop_event` set meanwhile, leaves the loop uncounted; any other error is `AfterPollError`; `FiveFailuresEndRun` and `ConnectionErrorEndsRun` state the loop's behaviour |
| ChatScraper.FiveFailuresEndRun | chat_fetchers/yt_chat_scraper.py:291-358 | five failures from the start, none a connection error, end the loop after five polls, restarted and stopped |
| ChatScraper.ConnectionErrorEndsRun | chat_fetchers/yt_chat_scraper.py:295-296 | a connection error leaves the loop at once, without counting |
| ChatScraper.YoutubeChatScraper.constructor | chat_fetchers/yt_chat_scraper.py:105-120 | empty seen set and queue, counter 0, no restart, not stopped, launch time recorded |
| ChatScraper.YoutubeChatScraper.GetChatData | chat_fetchers/yt_chat_scraper.py:213-281 | changes the seen set and queue exactly as `ChatData` says and sets `running` |
| ChatScraper.YoutubeChatScraper.Visit | chat_fetchers/yt_chat_scraper.py:226-266 | one loop pass on the object equals `Step` |
| ChatScraper.YoutubeChatScraper.ScanContainers | chat_fetchers/yt_chat_scraper.py:225-266 | the loop on the object equals `Scan` |
| ChatScraper.YoutubeChatScraper.Restart | chat_fetchers/yt_chat_scraper.py:348-362 | counter and flags become `Escalation.Restart` of the old ones; `running` is false; the seen set is kept |
| ChatScraper.YoutubeChatScraper.PollOnce | chat_fetchers/yt_chat_scraper.py:292-309 | one loop iteration: the poll as `ChatData`, then counter, flags and exit as `AfterPoll` |
| ChatScraper.YoutubeChatScraper.RunScraper | chat_fetchers/yt_chat_scraper.py:284-309 | a failed start sets `stop_event` and polls nothing; otherwise the outcomes, seen set and queue are those of `Feed` and the flags those of `Run`, until the pages run out or the loop ends |
| LegacyScraper.ConvertTimestamp | yt_chat_scraper.py:72-81 | as in the current version, but the date is always today's |
| LegacyScraper.LaterHourIsFuture | yt_chat_scraper.py:72-81 | a label whose hour is later than the current hour converts to a future time, where the current version gives a past one |
| LegacyScraper.Step | yt_chat_scraper.py:198-224 | one pass of the container loop only adds ids to the seen set |
| LegacyScraper.Scan | yt_chat_scraper.py:198-224 | the container loop only adds ids to the seen set |
| LegacyScraper.ScanIdsFresh | yt_chat_scraper.py:201-211 | every queued message has an id new before the poll and seen after it |
| LegacyScraper.ScanIdsDistinct | yt_chat_scraper.py:201-211 | no two queued messages share an id |
| LegacyScraper.SeenIdSkipped | yt_chat_scraper.py:201 | a seen id is skipped and the loop continues |
| LegacyScraper.StaleLeftUnmarked | yt_chat_scraper.py:202-224 | a stale read skips the container without marking its id |
| LegacyScraper.NewMessageRead | yt_chat_scraper.py:201-221 | a readable new container is marked and, unless written by the bot, queued first |
| LegacyScraper.CompletedMarksRead | yt_chat_scraper.py:211 | after a completed poll every readable container with an id is marked seen |
| LegacyScraper.RescanEmitsNothing | yt_chat_scraper.py:201-211 | scanning the same containers with their ids seen queues nothing |
| LegacyScraper.StaleThenReadable | yt_chat_scraper.py:202-224 | a message stale on one poll and readable on the next is queued on the next; the current version never queues it |
| LegacyScraper.SeenIdThenNew | yt_chat_scraper.py:198-201 | the old loop goes past a seen id and queues a newer message after it; the current one stops there |
| LegacyScraper.ScanLoopStep | yt_chat_scraper.py:198-224 | a loop pass advances the scan by one `Step` |
| LegacyScraper.ChatData | yt_chat_scraper.py:187-237 | connection error and no containers leave state; otherwise the containers are scanned in page order, a browser lost during the scan raising a connection error after what was queued so far, and a completed scan ends as `AfterScroll` says |
| LegacyScraper.RepollEmitsNothing | yt_chat_scraper.py:201-211 | a completed poll of the same page twice queues nothing the second time |
| LegacyScraper.Feed | yt_chat_scraper.py:247-249 | n successive polls give one outcome each |
| LegacyScraper.Run | yt_chat_scraper.py:247-261 | the polling loop runs no more polls than it has outcomes |
| LegacyScraper.RunSnoc | yt_chat_scraper.py:247-261 | a loop that has not ended takes the next outcome and re-tests its condition |
| LegacyScraper.AfterPoll | yt_chat_scraper.py:250-261 | definition only: every error, a connection error too, is `AfterPollError`; `ConnectionErrorCounted` and `FiveFailuresEndRun` state the loop's behaviour |
| LegacyScraper.ConnectionErrorCounted | yt_chat_scraper.py:250-252 | the old loop counts a connection error like any other and goes on polling, where the current one leaves |
| LegacyScraper.FiveFailuresEndRun | yt_chat_scraper.py:247-290 | five failures from the start end the loop after five polls, restarted and stopped |
| LegacyScraper.YoutubeChatScraper.constructor | yt_chat_scraper.py:86-98 | empty seen set and queue, counter 0, no restart, not stopped |
| LegacyScraper.YoutubeChatScraper.GetChatData | yt_chat_scraper.py:187-237 | changes the seen set and queue exactly as `ChatData` says |
| LegacyScraper.YoutubeChatScraper.Visit | yt_chat_scraper.py:199-224 | one loop pass on the object equals `Step` |
| LegacyScraper.YoutubeChatScraper.ScanContainers | yt_chat_scraper.py:198-224 | the loop on the object equals `Scan` |
| LegacyScraper.YoutubeChatScraper.Restart | yt_chat_scraper.py:276-290 | counter and flags become `Escalation.Restart` of the old ones, seen set kept |
| LegacyScraper.YoutubeChatScraper.PollOnce | yt_chat_scraper.py:248-261 | one iteration: the poll as `ChatData`, then counter and flags as `AfterPoll` |
| LegacyScraper.YoutubeChatScraper.RunScraper | yt_chat_scraper.py:240-261 | a failed start sets `stop_event`; otherwise outcomes, seen set and queue follow `Feed` and the flags `Run` |
| ApiChat.Fetched | chat_fetchers/yt_api_chat.py:51-66 | the item loop only adds ids to the seen set |
| ApiChat.FetchedNewIds | chat_fetchers/yt_api_chat.py:51-66 | the seen set grows by exactly the ids queued; each was new and none is queued twice |
| ApiChat.FetchedSound | chat_fetchers/yt_api_chat.py:53-65 | each queued record is the record of a page item by someone other than the bot, whose id was new |
| ApiChat.FetchedCovers | chat_fetchers/yt_api_chat.py:51-66 | after the loop every item not written by the bot has its id seen |
| ApiChat.BotNotMarked | chat_fetchers/yt_api_chat.py:55-57 | an id carried only by the bot's own items is never recorded |
| ApiChat.FetchedAppend | chat_fetchers/yt_api_chat.py:51-66 | the loop over a+b is the loop over a followed by the loop over b |
| ApiChat.FetchedKnown | chat_fetchers/yt_api_chat.py:52-66 | a page whose non-bot items are all known queues nothing and changes nothing |
| ApiChat.RefetchEmitsNothing | chat_fetchers/yt_api_chat.py:52-66 | the same page handed back again queues nothing |
| ApiChat.Fetch | chat_fetchers/yt_api_chat.py:40-69 | the chat id is looked up only while unset; a lookup that raises leaves the method with nothing changed and no request sent; otherwise the request carries the chat id, the stored page token and `max_results` 100; a response stores its token, resets the counter and queues the loop's output; an `HttpError` counts and keeps the token; any other exception keeps token, counter, seen set and queue; the call raises exactly on a raising lookup or a non-`HttpError` exception |
| ApiChat.PollStep | chat_fetchers/yt_api_chat.py:73-78 | definition only: `Fetch`, plus one on the counter when an exception left `fetch_messages`; `PollStepNewIds` states what it queues |
| ApiChat.Polls | chat_fetchers/yt_api_chat.py:71-82 | definition only: the first n polls in turn; `FailuresAdd`, `FiveFailuresStop` and `PollsNeverRepeat` state where they lead |
| ApiChat.BelowLimitAt | chat_fetchers/yt_api_chat.py:72 | the loop stayed below the error limit up to poll n exactly when it did at each earlier poll |
| ApiChat.FailedPollCounts | chat_fetchers/yt_api_chat.py:67-69 | a failed poll adds one to the counter and leaves token, seen set and queue |
| ApiChat.ResponseResets | chat_fetchers/yt_api_chat.py:48-49 | a response resets the counter and stores the next page token |
| ApiChat.FailuresAdd | chat_fetchers/yt_api_chat.py:67-78 | m failed polls in a row add m to the counter |
| ApiChat.FiveFailuresStop | chat_fetchers/yt_api_chat.py:71-82 | five failures from a clean counter keep the loop going for four polls and reach the limit at the fifth |
| ApiChat.PollsNeverRepeat | chat_fetchers/yt_api_chat.py:51-78 | over any number of polls, the seen set grows by exactly the ids queued, and no id is queued twice or was known before |
| ApiChat.PollStepNewIds | chat_fetchers/yt_api_chat.py:72-78 | one poll grows the seen set by exactly the fresh, distinct ids it queues |
| ApiChat.YouTubeChat.constructor | chat_fetchers/yt_api_chat.py:25-38 | no chat id, no token, empty seen set and queue, counter 0, not stopped |
| ApiChat.YouTubeChat.FetchMessages | chat_fetchers/yt_api_chat.py:40-69 | the object's new state, queue and request are those of `Fetch` |
| ApiChat.YouTubeChat.QueueNewItems | chat_fetchers/yt_api_chat.py:51-66 | the item loop on the object equals `Fetched` |
| ApiChat.YouTubeChat.PollOnce | chat_fetchers/yt_api_chat.py:73-78 | one loop iteration equals `PollStep` |
| ApiChat.YouTubeChat.RunChat | chat_fetchers/yt_api_chat.py:71-82 | the polls made equal `Polls`; the loop stops when the replies run out, `stop_event` is set or the counter reaches five, and then sets `stop_event` |
| LiveStreamBot.IsLastPage | main.py:66 | definition only: the page has no next token or fewer than 100 items |
| LiveStreamBot.IntervalMillis | main.py:61 | definition only: `pollingIntervalMillis`, 10000 when absent, plus the 5-second buffer, in milliseconds |
| LiveStreamBot.Accumulated | main.py:58 | definition only: each page's items put in front of what came before; `AccumulatedNewestPageFirst` states the order |
| LiveStreamBot.PageItems | main.py:52-58 | the items of each fetched page, page by page |
| LiveStreamBot.AccumulatedNewestPageFirst | main.py:58 | prepending each page leaves the pages newest-first, each page in its own order |
| LiveStreamBot.AccumulatedSnoc | main.py:58 | pages after the first n do not change the accumulator after n |
| LiveStreamBot.PagesOf | main.py:52-58 | the pages of the first n replies, in request order |
| LiveStreamBot.TokenFor | main.py:48-64 | definition only: the first request carries no token, each later one the `nextPageToken` of the page before |
| LiveStreamBot.Paginate | main.py:52-72 | the first request has no token and each later one the token of the reply before; paging stops after the first page that has no next token or fewer than 100 items, at the first request that raises (an `HttpError` or network error, or a reply without `items`), or when replies run out; the items are the pages' newest first; the interval is the last page's |
| LiveStreamBot.Accepts | main.py:84 | definition only: the bookmark is empty or older in string order, and the author is not the bot; `BackwardChain` and `BackwardStops` state its use |
| LiveStreamBot.Backward | main.py:76-95 | the backward loop accepts no more items than it has |
| LiveStreamBot.BackwardSuffix | main.py:76-95 | the accepted items are the last items of the list, newest index first |
| LiveStreamBot.BackwardChain | main.py:84-92 | each accepted item is later than the previous bookmark and not by the bot |
| LiveStreamBot.BackwardStops | main.py:93-95 | the loop stops at the first item it would not accept |
| LiveStreamBot.BackwardIncreasing | main.py:84-92 | accepted timestamps strictly increase, all after a non-empty starting bookmark, none by the bot |
| LiveStreamBot.KeepLast | main.py:91 | `l[-n:]`: the last min(n, len) entries of the list |
| LiveStreamBot.UserEntry | main.py:88 | definition only: a user entry whose content is "author: message" |
| LiveStreamBot.Context | main.py:88-91 | definition only: the entries of the accepted items appended one at a time, the last 100 kept after each; `ContextBounded` and `ContextSnoc` state its properties |
| LiveStreamBot.ContextBounded | main.py:88-91 | the context never grows beyond 100 entries and ends with the newest accepted message |
| LiveStreamBot.KeepLastNewest | main.py:88-91 | appending and keeping the last n keeps the new entry last and drops one old entry when full |
| LiveStreamBot.Pairs | main.py:86 | one queued (author, message) pair per accepted item |
| LiveStreamBot.LastAfter | main.py:92 | definition only: the bookmark after a run of acceptances, the last accepted timestamp or the old bookmark when none was accepted |
| LiveStreamBot.BackwardIntended | main.py:76-95 | the intended selection never takes more items than it has |
| LiveStreamBot.OldestFirstAcceptsAtMostOne | main.py:76-95 | on an oldest-first list, which the API returns, the loop accepts at most one message per cycle |
| LiveStreamBot.TwoNewMessagesOneQueued | main.py:84-95 | two new messages after the bookmark: only the newer is queued, the older is lost; the intended selection takes both |
| LiveStreamBot.IntendedTakesAllNewer | main.py:84 | the intended selection takes exactly the items later than the bookmark, newest first |
| LiveStreamBot.ScanStep | main.py:76-95 | scanning one more item stops at the previous scan or accepts the item |
| LiveStreamBot.ScanAccept | main.py:84-92 | an accepted item moves from the rest of the backward scan to the accepted run, and the scan goes on from its timestamp |
| LiveStreamBot.ScanStop | main.py:93-95 | a refused item ends the backward scan with the run accepted so far |
| LiveStreamBot.PairsSnoc | main.py:86 | accepting one more item appends its (author, text) pair to the queued pairs |
| LiveStreamBot.ContextSnoc | main.py:88-91 | accepting one more item appends its user entry to the context and keeps the last 100 entries |
| LiveStreamBot.LiveStreamChatBot.constructor | main.py:26-38 | given a non-empty live chat id: bookmark is the launch time, context and queue empty |
| LiveStreamBot.LiveStreamChatBot.Start | main.py:26-38 | a bot comes out exactly when the live chat id is non-empty; without one `__init__` returns `False`, a `TypeError`, and no bot exists |
| LiveStreamBot.LiveStreamChatBot.ProcessLatest | main.py:76-95 | queue, context and bookmark change exactly as `Backward`, `Pairs` and `Context` say |
| LiveStreamBot.LiveStreamChatBot.FetchCycle | main.py:43-100 | one pass: pagination as `Paginate` (the token of each request, no earlier page last, the stop at a last page, a raise or the end of the replies); when a request raised, queue, context and bookmark are unchanged and the thread ends, otherwise the backward loop runs on the accumulated items |
| LiveStreamBot.LiveStreamChatBot.RecordResponse | main.py:106-107 | the bot's reply joins the context, kept to its last 100 entries |
| ResponseFormat.HeadLength | chat_response_modules/base.py:14 | `len(text[:195])` is 195 or the text length, whichever is smaller |
| ResponseFormat.Kept | chat_response_modules/base.py:14-19 | the kept part is a prefix of the first 195 characters, cut at their last space when there is one, else all of them |
| ResponseFormat.FormatResponse | chat_response_modules/base.py:12-25 | the response is at most 198 characters: the kept part, with "..." appended exactly when it is shorter than the text |
| ResponseFormat.ShortWordUnchanged | chat_modules/base.py:8-21 | text of at most 195 characters without a space comes back unchanged |
| ResponseFormat.ShortTextLosesLastWord | chat_response_modules/base.py:17-23 | short text with a space still loses its last word and gains "..." |
| ResponseFormat.HelloWorldLosesWorld | chat_modules/base.py:13-19 | "hello world" becomes "hello..." |
| ResponseFormat.FormatResponseIntended | chat_response_modules/base.py:12-25 | intended: text that fits comes back unchanged; longer text is a prefix plus "...", at most 198 characters |
| ResponseFormat.IntendedAgreesWhenTooLong | chat_response_modules/base.py:14-25 | on text longer than 195 characters the intended and actual formats agree |
| ResponseBase.GetResponseText | chat_response_modules/base.py:27-31 | a filtered author with a profane message gets the moderator line; everyone else gets the responder's answer |
| ResponseBase.ModeratorLineIffFiltered | chat_response_modules/base.py:28-30 | when the responder never says the moderator line, it appears exactly when the filter fires |
| ResponseBase.UnfilteredReachesResponder | chat_response_modules/base.py:28-31 | with the filter off, or for an allowlisted author, the message always reaches the responder |
| EchoBot.RespondTo | chat_modules/base.py:23-25 | the answer is "Echo: " followed by the message |
| EchoBot.EchoedMessage | chat_modules/base.py:25 | a message is recovered exactly from text that starts with "Echo: " |
| EchoBot.EchoRoundTrip | chat_modules/base.py:25 | the echoed message is recovered exactly |
| EchoBot.EchoInjective | chat_modules/base.py:25 | different messages give different echoes |
| ChatGpt.HasPrefix | chat_response_modules/chatgpt.py:14 | definition only: `if self.prompt_prefix:`, a prefix that is set and not empty |
| ChatGpt.PastEntry | chat_response_modules/chatgpt.py:19-20 | definition only: the user entry "author: message" of one history triple, its timestamp dropped |
| ChatGpt.HistoryStart | chat_response_modules/chatgpt.py:14-15 | one leading system entry exactly when the prompt prefix is truthy |
| ChatGpt.HistoryOf | chat_response_modules/chatgpt.py:18 | a missing history counts as empty |
| ChatGpt.BuildMessages | chat_response_modules/chatgpt.py:11-23 | the optional system entry, one user entry "author: message" per history triple in order, and the chat message last; every entry after the system one is a user entry |
| ChatGpt.RespondTo | chat_response_modules/chatgpt.py:10-36 | sends the messages `BuildMessages` states (the system entry when the prefix is set, then the history entries in order, then the latest message, all after the system entry by the user) and answers with the completion stripped of surrounding whitespace |
| FolderCleanup.RegularFiles | lib/utils.py:14 | exactly the entries that are regular files, in listing order |
| FolderCleanup.InsertByCtime | lib/utils.py:19 | inserting one entry grows the list by one |
| FolderCleanup.InsertPermutes | lib/utils.py:19 | the insertion keeps every entry |
| FolderCleanup.InsertBounded | lib/utils.py:19 | the insertion keeps an upper bound on creation times |
| FolderCleanup.InsertSorted | lib/utils.py:19 | inserting into a sorted list keeps it sorted |
| FolderCleanup.SortByCtime | lib/utils.py:19 | `sorted` keeps the length |
| FolderCleanup.SortPermutes | lib/utils.py:19 | `sorted` is a permutation |
| FolderCleanup.SortSorted | lib/utils.py:19 | `sorted` orders by creation time |
| FolderCleanup.CreatedAtAppend | lib/utils.py:19 | the entries created at a given time, over a concatenation |
| FolderCleanup.CreatedAtNone | lib/utils.py:19 | no entry created at that time leaves nothing to pick |
| FolderCleanup.InsertKeepsTies | lib/utils.py:19 | inserting after its ties keeps the order of files with equal creation time |
| FolderCleanup.CreatedAtSnoc | lib/utils.py:19 | the entries created at a given time, for one entry appended |
| FolderCleanup.SortKeepsTies | lib/utils.py:19 | `sorted` is stable: files created at the same time keep their listing order |
| FolderCleanup.SliceTo | lib/utils.py:22 | Python's `s[:stop]`, negative stops counting from the end |
| FolderCleanup.FilesToDelete | lib/utils.py:14-22 | definition only: with more regular files than `max_files`, the creation-time order sliced to `[:-max_files]`, else nothing; `FewFilesKept`, `OldestDeleted`, `DeletedOnce`, `OnlyFilesDeleted` and `ZeroMaxFilesDeletesNothing` state its properties |
| FolderCleanup.FewFilesKept | lib/utils.py:17 | a folder with no more files than the maximum loses nothing |
| FolderCleanup.OldestDeleted | lib/utils.py:17-22 | with 0 < max < files, exactly files-max files are chosen; they are the oldest, since the sorted list is the chosen files followed by max files none older than any chosen one |
| FolderCleanup.DeletedOnce | lib/utils.py:14-22 | the files chosen for deletion are drawn from the folder's regular files, none of them twice |
| FolderCleanup.OnlyFilesDeleted | lib/utils.py:14-22 | only regular files of the folder are chosen |
| FolderCleanup.ZeroMaxFilesDeletesNothing | lib/utils.py:22 | with a maximum of 0 nothing is chosen, however many files there are |
| FolderCleanup.OneFileSurvivesZero | lib/utils.py:17-22 | one file and a maximum of 0 leave the file in place |
| FolderCleanup.FilesToDeleteIntended | lib/utils.py:9-22 | definition only: the oldest files until at most `max_files`, and at least zero, remain; `IntendedLeavesMaxFiles` and `IntendedAgreesWhenPositive` state its properties |
| FolderCleanup.IntendedLeavesMaxFiles | lib/utils.py:9-11 | the intended choice leaves exactly min(max, files) files and deletes a prefix of the files sorted oldest first |
| FolderCleanup.IntendedAgreesWhenPositive | lib/utils.py:17-22 | for a positive maximum the intended and actual choices agree |
| FolderCleanup.Without | lib/utils.py:23-24 | removing a list of names one by one leaves only entries of the old folder |
| FolderCleanup.RemoveNamed | lib/utils.py:24 | `os.remove` drops exactly the entries with that name |
| FolderCleanup.WithoutSpares | lib/utils.py:23-24 | removing names leaves every entry whose name was not removed |
| FolderCleanup.Folder.Remove | lib/utils.py:24 | the folder loses the named entry |
| FolderCleanup.Folder.CleanupFolder | lib/utils.py:8-25 | the folder afterwards is the old one without the chosen files |
| ChatMerger.Dedupe | lib/chat_merger.py:24-40 | definition only: one drain loop keeping a message, and marking its text seen, when its text was not seen; `DedupeSeen`, `DedupeKeepsNew`, `DedupeDistinct`, `DedupeSnoc`, `DedupeAppend` and `DedupeSubsequence` state its properties |
| ChatMerger.UniqueMessages | lib/chat_merger.py:18-42 | definition only: `Dedupe` over the scraper's queue, then the API's, from no seen texts; `UniqueMessagesShape`, `ScraperCopyWins` and `AuthorIgnored` state its properties |
| ChatMerger.ContentsOfMember | lib/chat_merger.py:26-29 | a text is among the seen contents exactly when a message carries it |
| ChatMerger.ContentsOfAppend | lib/chat_merger.py:19-40 | the contents of a concatenation are the union of the contents |
| ChatMerger.DedupeSeen | lib/chat_merger.py:28-29 | after a drain the seen set is the starting set plus every text drained |
| ChatMerger.DedupeKeepsNew | lib/chat_merger.py:24-30 | the kept messages carry exactly the drained texts that were not seen at the start |
| ChatMerger.DedupeDistinct | lib/chat_merger.py:28-30 | no two kept messages share a text |
| ChatMerger.DedupeSnoc | lib/chat_merger.py:25-30 | one more message is kept, and its text marked seen, exactly when its text is not seen yet; otherwise nothing changes |
| ChatMerger.DedupeAppend | lib/chat_merger.py:19-40 | de-duplicating a+b is de-duplicating a, then b with the seen set carried over |
| ChatMerger.SubsequenceDropLast | lib/chat_merger.py:24-30 | dropping the last element keeps the subsequence relation |
| ChatMerger.SubsequenceExtend | lib/chat_merger.py:24-30 | appending to the larger list keeps the subsequence relation |
| ChatMerger.DedupeSubsequence | lib/chat_merger.py:24-30 | the kept messages are the input in order with some dropped |
| ChatMerger.UniqueMessagesShape | lib/chat_merger.py:18-42 | the result carries exactly the texts of both queues, each once, in queue order, scraper queue first |
| ChatMerger.ScraperCopyWins | lib/chat_merger.py:23-40 | the result starts with the scraper's unique messages; no later message repeats a scraper text |
| ChatMerger.AuthorIgnored | lib/chat_merger.py:26-29 | two messages with the same text from different authors count as one |
| ChatMerger.HashMessage | lib/chat_merger.py:11-16 | the hash exists exactly when the record has both an author and a message key; a missing key is the source's `KeyError` |
| ChatMerger.HashIgnoresBoundary | lib/chat_merger.py:13-16 | two records whose author and message concatenate to the same text hash alike, e.g. ("ab", "c") and ("a", "bc") |
| ChatMerger.ChatMerger.constructor | lib/chat_merger.py:7-9 | stores the two optional sources |
| ChatMerger.ChatMerger.DrainUnique | lib/chat_merger.py:24-30 | draining a queue empties it and extends result and seen set as `Dedupe` of its contents |
| ChatMerger.ChatMerger.GetUniqueMessages | lib/chat_merger.py:18-42 | empties the present queues and returns `UniqueMessages` of their old contents |
| ChatMerger.ChatMerger.ExtractMessagesFromQueue | lib/chat_merger.py:44-52 | returns the queue's contents in order and leaves it empty |

## Left out

- Selenium itself is not modelled: the driver, CSS lookups, `execute_script`, scrolling and the random mouse and keyboard interactions. A page is an abstract list of containers whose fields are readable, stale, missing or lost with the browser, plus the outcome of scrolling `item-scroller`.
- Threads, `start_threaded`, `stop`, `time.sleep` and `threading.Event` waits are left out. Each loop is modelled as one thread running over a given sequence of poll outcomes or replies, with no concurrent writers to its queue.
- YoutubeChatScraper.Restart: the new driver and the relaunched scraper thread are not modelled, only the counter and flags.
- The model fixes the host's time zone at UTC. The current scraper strips the zone from a UTC time (chat_fetchers/yt_chat_scraper.py:241) and compares it with the naive local `launch_time` (chat_fetchers/yt_chat_scraper.py:118), so on a host outside UTC its launch filter is off by the UTC offset, which the model does not capture.
- `datetime.now(timezone.utc)` is a `now` parameter in whole UTC seconds, microseconds are dropped, and `round` on a float is exact integer rounding half to even.
- The ISO timestamp strings of the API are compared as strings, as `main.py` does. LiveStreamBot.BackwardIncreasing requires every timestamp to be non-empty.
- ChatScraper.Reader and LegacyScraper.Reader: the clock is read once per poll, not once per `convert_timestamp` call, so the model does not capture two containers of one poll being dated on either side of an hour or day boundary.
- PyStrings.ParseInt accepts ASCII decimal digits only; Python's `int()` also accepts other Unicode decimal digits, such as Arabic-Indic ones, which the model treats as a `ValueError`.
- Both scrapers' ConvertTimestamp: a label that fails to parse is modelled as a bad timestamp, which makes the poll raise. The exact Python exception types are not distinguished.
- The YouTube Data API client, OAuth and `googleapiclient` are left out. Replies are values: a response with items, an interval and a next token; an `HttpError` or network error of the client; or, in `main.py`, a response without `items`.
- The `liveBroadcasts` lookup inside `get_live_chat_id` is a parameter: it answers an id, nothing, or raises.
- ApiChat.Fetch: an API item missing a key (a `KeyError` in the source) is not modelled; items are well-formed records.
- LiveStreamBot.LiveStreamChatBot.ProcessLatest: an item missing `authorDetails` or `snippet` (a `KeyError` that would end the thread) is not modelled; items are well-formed records.
- LiveStreamBot.LiveStreamChatBot.FetchCycle models one pass of `fetch_messages`' outer `while not self.stop_fetching`; when it reports a raised request the thread is over, and no later pass is modelled. The redundant token test at main.py:69-70 always agrees with the one at 66-67 and is folded into it.
- `process_messages`' call into the bot is left out (main.py:102-105). `main.py` passes the context as dictionaries and imports `chat_modules/chatgpt.py`, which is not part of this model; the `respond_to` of chat_response_modules/chatgpt.py:19 unpacks each history entry as a triple. Only the context update is modelled.
- md5 is a function parameter of HashMessage, and OpenAI's completion is a function parameter of ChatGpt.RespondTo. Neither is computed.
- The profanity test is a function parameter of ResponseBase.GetResponseText.
- The base bot's two-argument `respond_to` is left out. `get_response_text` calls it with three arguments, which raises `TypeError` unless a subclass overrides it. EchoBot models the echo itself.
- Files are identified by name. `os.path.join` and directory paths are not modelled.
- Creation times are integers, and the listing order of `os.listdir` is the given order of entries.
- Context parsing (spaCy), audio recording and playback, logging, configuration loading, `InputManager` and the `setup` methods are not part of this model.
- The code has no relevance gate and keeps no message-fingerprint history: the merger compares raw message text and the scrapers compare container ids, as the code does.
- ChatMerger.ChatMerger.GetUniqueMessages: when both sources share one queue object, the model drains it once, as the second `empty()` test would find it empty.

## Findings

| source | as written | input that shows it | evidently intended | confidence | as-written member | corrected member |
|---|---|---|---|---|---|---|
| chat_fetchers/yt_chat_scraper.py:357-358 and yt_chat_scraper.py:285-286 | `restart()` clears `stop_event` and sets it again at once, so the polling loop ends at the first restart | five failed polls from the start | the restart lets polling go on, and only five more failures stop it | high, not executed | Escalation.FifthFailureEndsPolling | Escalation.IntendedRestartKeepsPolling |
| main.py:84-95 | the backward loop moves the bookmark to each accepted timestamp, so on the API's oldest-first list only the newest message is taken | bookmark t0 and two new messages at t1 < t2 | every message later than the bookmark is queued | high, not executed | LiveStreamBot.TwoNewMessagesOneQueued | LiveStreamBot.IntendedTakesAllNewer |
| chat_response_modules/base.py:17-23 and chat_modules/base.py:13-19 | the text is cut at its last space even when it already fits, and the cut itself counts as truncation | "hello world" becomes "hello..." | text of 195 characters or fewer is returned unchanged | high, not executed | ResponseFormat.HelloWorldLosesWorld | ResponseFormat.FormatResponseIntended |
| lib/utils.py:22 | `sorted_files[:-0]` is empty, so a maximum of 0 deletes nothing | one file, `max_files` = 0 | no more than `max_files` files remain | medium, not executed | FolderCleanup.OneFileSurvivesZero | FolderCleanup.IntendedLeavesMaxFiles |
