# newzbin client core, modelled in Dafny

This project models the sequential logic of SABnzbd's newzbin.com client,
`main/sabnzbd/newzbin.py`. It has four parts:

- **the soft-failure dampener** (`_warn_user`, `_access_ok`). This is the
  process-wide counter `_gFailures`. It rises with each soft failure, goes
  back to 0 once it passes 5 (logging a warning instead of a debug line)
  and is reset by every healthy reply;
- **DirectNZB report fetching** (`_grabnzb`). A transport result and the
  `X-DNZB-*` reply headers are classified into a retry after N seconds, a
  permanent failure, a success with a normalised `.nzb` file name, or an
  exception. The classification includes the parser for the 450 reply's
  `wait N seconds` and the 80-character name cap;
- **the report grabber thread** (`MSGIDGrabber`). A worker drains a FIFO
  queue of `(msgid, nzo)` requests, keeps the current msgid across
  retries, and stops at a `(None, None)` sentinel, at a false msgid or
  when the shutdown flag is set;
- **the bookmark mirror** (`Bookmarks`). A fetch appends the msgids of the
  reply lines that are new. A delete removes one msgid, but only when the
  server confirms it. The module-level `delete_bookmark` guards the delete
  with two settings.

Files:

- `builtins.dfy` (module `Builtins`) states the Python 2 built-ins the code
  relies on:
  - truthiness;
  - `in` between strings;
  - `startswith`, `split(sep)`, `split(sep, 2)` and `strip(chars)`;
  - which strings `int()` accepts;
  - `list.remove`.
- `dampener.dfy` (module `Dampener`) is the counter: the class
  `FailureDampener` with spec functions `WarnStep` and `After`.
- `directnzb.dfy` (module `DirectNzb`) is `_grabnzb`. The pure function
  `Classify` gives the outcome. The method `GrabNzb` also feeds the
  dampener.
- `grabber.dfy` (module `Grabber`) is the worker. The class `MsgidGrabber`
  has one method per action. Its `Step` is one pass of `run`'s loop, tied
  to the pure `StepSpec`.
- `bookmarks.dfy` (module `BookmarkSync`) is the `Bookmarks` class. Its
  methods are tied to the pure `RunOutcome` and `Merge`.

The HTTP exchange is an input value. `Transport` is either an exception
while connecting, or the reply's headers (or status) and body. The
external helpers are parameters:

- `sanitize_foldername`;
- `name_fixer`;
- `CatConvert`;
- whether `insert_future_nzo` accepts the report;
- what `load_data` returned;
- the two `cfg` switches.

Quirks of the code that the model reproduces:

- A reply with neither `X-DNZB-RCode` nor `X-DNZB-RText` returns before
  `_access_ok` is reached. So it leaves the counter as it was. It is not
  reset.
- The name cap applies only above 80 characters. A sanitized name of
  exactly 80 characters keeps all 80, and only longer names are cut to
  79.
- `strip('. ')` removes dots and spaces at both ends of the cut name, not
  only at its end.
- `rcode in ('402')` and `rcode in ('401')` are substring tests on a
  string, not tuple membership. For three-digit codes they amount to
  equality. For `"40"`, `"01"` or an empty code they do not.
- An absent `X-DNZB-RCode` with a present `X-DNZB-RText` passes the header
  check. It then makes `None in ('402')` raise. The worker thread ends.
- A 200 reply with an empty body makes `if filename and data` false. The
  worker then calls `int(filename)` on a `.nzb` name, which raises, and
  the thread ends.
- `sleeper(5)` runs after every pass that fetched, whether the pass
  succeeded, retried or failed.
- In `Bookmarks.run`, `int(msgid)` for `add_msgid` runs after the msgid
  has been appended. A msgid that is not a number stays in the list, and
  the `ValueError` ends `run`, skipping the remaining lines.
- A confirmed delete of a msgid that is not listed makes `list.remove`
  raise. `del_bookmark` only asks for a listed msgid, so this can only
  happen through `run` itself.
- `run('')` fetches rather than deletes, since `''` is false.
- `int()` on a byte string accepts whitespace between the sign and the
  digits, so a reply line whose msgid is `- 5` is handed on as a number.

## Model

| member | source | states |
|---|---|---|
| Dampener.WarnStep | main/sabnzbd/newzbin.py:127-136 | One `_warn_user` call on the counter, as a definition. `WarnStepInRange` and `WarningEverySixth` state its properties |
| Dampener.After | main/sabnzbd/newzbin.py:126-140 | The counter after one remote call, as a definition. `AfterInRange` states its property |
| Dampener.WarnStepInRange | main/sabnzbd/newzbin.py:127-136 | From a counter in [0, 5], `_warn_user` keeps it in [0, 5]. It warns exactly when the counter was 5, and then resets it to 0. Otherwise it adds exactly one |
| Dampener.AfterInRange | main/sabnzbd/newzbin.py:126-140 | No remote call (soft failure, healthy reply, or neither) takes the counter out of [0, 5] |
| Dampener.WarningEverySixth | main/sabnzbd/newzbin.py:127-136 | From a reset counter, n soft failures in a row give n / 6 warnings and leave the counter at n mod 6 |
| Dampener.FailureDampener.constructor | main/sabnzbd/newzbin.py:126 | The counter starts at 0 |
| Dampener.FailureDampener.WarnUser | main/sabnzbd/newzbin.py:127-136 | Updates the counter and reports the log level as `WarnStep` says, and keeps the range invariant |
| Dampener.FailureDampener.AccessOk | main/sabnzbd/newzbin.py:138-140 | Sets the counter to 0 |
| Dampener.FailureDampener.Record | main/sabnzbd/newzbin.py:126-140 | The counter after one call, through `_warn_user` or `_access_ok`, is `After(old, e)`, and the range invariant is kept |
| Builtins.SubstringOfSameLength | main/sabnzbd/newzbin.py:289-295 | For strings of equal length, `a in b` holds exactly when a == b |
| Builtins.Strip | main/sabnzbd/newzbin.py:315 | `s.strip(chars)` is the part of s left once the runs of `chars` at both ends are removed. The removed runs hold only `chars`, and the result neither starts nor ends with one |
| Builtins.StripIdempotent | main/sabnzbd/newzbin.py:315 | Stripping twice gives the same as stripping once |
| Builtins.Split | main/sabnzbd/newzbin.py:401 | `s.split(sep)` gives pieces free of sep that join back into s. There is exactly one piece when s holds no sep |
| Builtins.SplitThree | main/sabnzbd/newzbin.py:402-405 | `msgid, size, text = line.split('\t', 2)` unpacks exactly when the line holds two tabs. The three fields with the two tabs rebuild the line, and the first two fields hold no tab |
| Builtins.IsSubstring | main/sabnzbd/newzbin.py:289-295 | `a in b` on strings, as a definition. `SubstringNoLonger` and `SubstringOfSameLength` prove what the code relies on |
| Builtins.IsPyInt | main/sabnzbd/newzbin.py:409 | Which strings `int()` accepts, as a definition: whitespace, an optional sign, whitespace, one or more digits, whitespace. `IntExamples`, `IntCharsOnly` and `DigitsAreInt` state its properties |
| Builtins.IntExamples | main/sabnzbd/newzbin.py:409 | `int()` accepts `- 5`, ` +7` followed by a newline, and `0042`. It refuses `-`, `- `, `5 5` and the empty string |
| Builtins.IntCharsOnly | main/sabnzbd/newzbin.py:200 | `int()` refuses a string whose last character is neither a digit nor whitespace |
| Builtins.DigitsAreInt | main/sabnzbd/newzbin.py:409 | `int()` accepts a non-empty run of decimal digits |
| Builtins.RemoveFirst | main/sabnzbd/newzbin.py:397 | `list.remove(x)` drops the first occurrence of x and keeps the other elements in their order, so the length drops by one and the multiset loses one x. On a list without duplicates, x is gone afterwards and no duplicate appears |
| DirectNzb.MatchesAt | main/sabnzbd/newzbin.py:279-281 | Where `wait (\d+) seconds` matches, as a definition. `WaitMatchAtStart` and `FirstWait` use it |
| DirectNzb.CounterEffect | main/sabnzbd/newzbin.py:240-276 | What `_grabnzb` does to the counter, as a definition. `SoftFailuresRetry300` and `HealthyRepliesReset` characterise it |
| DirectNzb.DigitRun | main/sabnzbd/newzbin.py:279-281 | The digit run that `\d+` matches greedily: all its characters are digits, and the next character is not |
| DirectNzb.FirstWait | main/sabnzbd/newzbin.py:279-281 | `findall(...)[0]`: there is a value exactly when `wait N seconds` matches somewhere, and the value is that of the leftmost match |
| DirectNzb.WaitDelay | main/sabnzbd/newzbin.py:278-287 | The 450 delay lies in [1, 61]. It is 61 without a status text or without a match. Otherwise it is min(N of the leftmost match, 60) + 1 |
| DirectNzb.WaitText | main/sabnzbd/newzbin.py:278-287 | For the status text `wait N seconds` the delay is min(N, 60) + 1 |
| DirectNzb.LeadingWait | main/sabnzbd/newzbin.py:278-287 | A status text that starts with a match gets that match's delay |
| DirectNzb.WaitMatchAtStart | main/sabnzbd/newzbin.py:279-281 | The pattern matches `wait N seconds` at its start, and the value of the group is N |
| DirectNzb.CapName | main/sabnzbd/newzbin.py:313-316 | The file name ends in `.nzb`. A name of at most 80 characters is kept whole. A longer one becomes its first 79 characters with dots and spaces stripped, so the base is at most 79 characters |
| DirectNzb.CapNameBase | main/sabnzbd/newzbin.py:314-315 | A cut base is a contiguous part of the first 79 characters with no dot or space at either end. Everything cut from those 79 characters is dots and spaces |
| DirectNzb.Classify | main/sabnzbd/newzbin.py:214-320 | Every outcome of `_grabnzb` is well formed: a retry delay is at least 1, and a file name ends in `.nzb` |
| DirectNzb.GrabNzb | main/sabnzbd/newzbin.py:240-242 | Returns the classification. It changes the counter by the call's effect: `_warn_user` on an exception or a 500/503, `_access_ok` past the header check, nothing otherwise. It keeps the range invariant |
| DirectNzb.SoftFailuresRetry300 | main/sabnzbd/newzbin.py:240-242 | A transport exception or a 500/503 retries after 300 seconds and counts as a soft failure. These are exactly the soft failures. A retry comes exactly from these and from a 450 |
| DirectNzb.HealthyRepliesReset | main/sabnzbd/newzbin.py:255-287 | A reply that passes the header check and is no 500/503 resets the counter. Among these replies, a retry comes only from a 450 |
| DirectNzb.RateLimitDelay | main/sabnzbd/newzbin.py:278-287 | A 450 retries after the `WaitDelay` of its status text, which lies in [1, 61] |
| DirectNzb.RetryDelayPositive | main/sabnzbd/newzbin.py:240-287 | Every retry delay is 300 or lies in [1, 61] |
| DirectNzb.PermanentFailures | main/sabnzbd/newzbin.py:255-310 | These are permanent failures, each with its reason: no rcode and no rtext, 402, 401, 400/404, any code other than 200/450/500/503, and 200 without name or category |
| DirectNzb.SuccessShape | main/sabnzbd/newzbin.py:301-320 | A success comes only from a 200 with a name and a category. It carries the capped sanitized name (ending in `.nzb`), the category, the body and the more-info header |
| DirectNzb.RaisedExactly | main/sabnzbd/newzbin.py:255-289 | `_grabnzb` raises exactly when X-DNZB-RCode is absent and X-DNZB-RText is present |
| DirectNzb.SubstringCodeQuirk | main/sabnzbd/newzbin.py:289-295 | The substring tests accept the two-character codes `40` (credit) and `01` (authorisation), and an empty code with a status text (credit) |
| DirectNzb.NzbNameIsNoInt | main/sabnzbd/newzbin.py:197-200 | `int()` refuses a name ending in `.nzb`, so `int(filename)` on a success without data raises |
| DirectNzb.EndToEndExamples | main/sabnzbd/newzbin.py:297-320 | A 200 reply named `My Cool Release` gives `My Cool Release.nzb`, and a 404 is a bad-report failure |
| Grabber.Pop | main/sabnzbd/newzbin.py:172 | `queue.get()` takes the head of the queue, leaves the rest in order and makes that entry's msgid current |
| Grabber.Fetch | main/sabnzbd/newzbin.py:177-209 | The fetch part of a pass keeps the invariant that a current msgid has its job |
| Grabber.SleepTicks | main/sabnzbd/newzbin.py:163-166 | The seconds `sleeper` sleeps, as a definition. `MsgidGrabber.Sleeper` is proved equal to it |
| Grabber.JobCategory | main/sabnzbd/newzbin.py:184-190 | The category `insert_future_nzo` receives, as a definition: `cat_to_opts` applied to the job's own category, or to the converted newzbin category when the job has none |
| Grabber.StopSpec | main/sabnzbd/newzbin.py:156-159 | `stop()`, as a definition. `StopEndsNextStep` and `MsgidGrabber.Stop` state its properties |
| Grabber.StepSpec | main/sabnzbd/newzbin.py:170-209 | One pass keeps that invariant, and never returns to the idle phase |
| Grabber.StepFetchesNextId | main/sabnzbd/newzbin.py:170-177 | A pass calls `_grabnzb` exactly when `NextId` names a msgid, and its result is about that msgid |
| Grabber.RetryKeepsState | main/sabnzbd/newzbin.py:197-209 | A retry leaves the whole state, the msgid included, as it was. It sleeps the delay plus the 5-second pause, and the next pass fetches the same report |
| Grabber.RetryAfterDequeue | main/sabnzbd/newzbin.py:171-200 | A retry right after a dequeue keeps the dequeued msgid current, and the queue has lost only its head |
| Grabber.FinalClearsMsgid | main/sabnzbd/newzbin.py:178-209 | A success with data or a permanent failure clears the msgid and pauses 5 seconds. An exception or an empty body ends the thread. A delivered report carries the fixed name and the data |
| Grabber.SentinelEndsLoop | main/sabnzbd/newzbin.py:172-174 | Dequeuing the sentinel or an empty msgid ends the loop, and the queue has lost its head |
| Grabber.ShutdownEndsLoop | main/sabnzbd/newzbin.py:170 | With the flag set, the loop ends at its head and dequeues nothing |
| Grabber.StopEndsNextStep | main/sabnzbd/newzbin.py:156-174 | After `stop()`, the next pass ends the loop without fetching or sleeping, from any phase |
| Grabber.ProcessedInOrder | main/sabnzbd/newzbin.py:170-204 | When every outcome moves on, k passes fetch the first k queued msgids in FIFO order, one per pass, and remove exactly those k entries |
| Grabber.RetriesStayPut | main/sabnzbd/newzbin.py:197-200 | Any run of retries leaves the state unchanged, and each pass retries the same msgid |
| Grabber.MsgidGrabber.constructor | main/sabnzbd/newzbin.py:145-150 | The queue starts with the pending requests, the flag is clear, and no msgid is current |
| Grabber.MsgidGrabber.Grab | main/sabnzbd/newzbin.py:152-154 | Appends `(msgid, nzo)` at the back of the queue, and changes nothing else |
| Grabber.MsgidGrabber.Stop | main/sabnzbd/newzbin.py:156-159 | Sets the flag and appends the sentinel |
| Grabber.MsgidGrabber.Start | main/sabnzbd/newzbin.py:168-169 | The start of `run` clears the flag and the current msgid |
| Grabber.MsgidGrabber.Sleeper | main/sabnzbd/newzbin.py:163-166 | Sleeps one second per step while the flag is clear: `delay` seconds (0 for a negative delay), or none with the flag set |
| Grabber.MsgidGrabber.Dequeue | main/sabnzbd/newzbin.py:172 | The new state is `Pop` of the old one |
| Grabber.MsgidGrabber.FetchCurrent | main/sabnzbd/newzbin.py:177-209 | The new state, the result and the seconds slept are those of `Fetch`, and the counter is updated by the fetch's effect |
| Grabber.MsgidGrabber.Step | main/sabnzbd/newzbin.py:170-209 | The new state, the result and the seconds slept are those of `StepSpec`. The counter changes exactly when the pass fetches |
| BookmarkSync.StatusText | main/sabnzbd/newzbin.py:369 | `str(response.status)` is three decimal digits |
| BookmarkSync.StatusTextIs | main/sabnzbd/newzbin.py:369-389 | Two status texts are equal, or one is a substring of the other, exactly when the statuses are equal |
| BookmarkSync.KnownStatusTexts | main/sabnzbd/newzbin.py:382-393 | The statuses `run` tests have the texts it compares with |
| BookmarkSync.RcodeTests | main/sabnzbd/newzbin.py:382-393 | Each string test `run` makes on `rcode`, the substring test included, is the same as a test on the status |
| BookmarkSync.RunCounterEffect | main/sabnzbd/newzbin.py:362-392 | A bookmark request resets the counter on every status but 500/503, and counts a soft failure on 500/503 or an exception |
| BookmarkSync.LineIdShape | main/sabnzbd/newzbin.py:401-406 | A true msgid is the text before the first tab of a line that holds a second tab. Such a line with a non-empty first field always gives one |
| BookmarkSync.LineIdIsSplitField | main/sabnzbd/newzbin.py:402-405 | The line's msgid is the first field of `line.split('\t', 2)`. It is false when the unpacking raises |
| BookmarkSync.LineId | main/sabnzbd/newzbin.py:402-406 | The msgid of one line, as a definition. `LineIdShape` and `LineIdIsSplitField` prove that it is the first field of `split('\t', 2)` |
| BookmarkSync.LineIds | main/sabnzbd/newzbin.py:401 | One msgid per reply line |
| BookmarkSync.LineIdsAt | main/sabnzbd/newzbin.py:401-406 | The i-th msgid of the reply is the msgid of its i-th line |
| BookmarkSync.Merge | main/sabnzbd/newzbin.py:401-409 | The fetch loop as a function of the list and the line msgids. Its properties are the `Merge…` lemmas below |
| BookmarkSync.MergeAppendsFresh | main/sabnzbd/newzbin.py:400-409 | The fetch appends only non-empty msgids of the reply that were not listed, each once |
| BookmarkSync.MergeComplete | main/sabnzbd/newzbin.py:400-409 | When nothing raises, every true msgid of the reply is listed afterwards |
| BookmarkSync.MergeRaisesOnNonNumber | main/sabnzbd/newzbin.py:406-409 | `int()` raises only on the last appended msgid, which is no number. Every msgid before it is a number |
| BookmarkSync.MergeStopsAtRaise | main/sabnzbd/newzbin.py:400-409 | After the exception, later reply lines change nothing |
| BookmarkSync.MergeAllKnown | main/sabnzbd/newzbin.py:406 | A reply whose msgids are all listed appends nothing |
| BookmarkSync.MergeIsDedupOfFresh | main/sabnzbd/newzbin.py:400-409 | When nothing raises, the appended msgids equal a reference: the new msgids of the reply in reply order, repeats dropped |
| BookmarkSync.DeleteOnlyWhenConfirmed | main/sabnzbd/newzbin.py:362-399 | A listed bookmark leaves the list exactly when the status is 200 and the body starts with `1`. It then leaves once, without duplicates appearing. Every other reply or exception leaves the list as it was |
| BookmarkSync.EmptyDeleteIsFetch | main/sabnzbd/newzbin.py:393-409 | `run('')` behaves exactly like a fetch |
| BookmarkSync.CounterEffect | main/sabnzbd/newzbin.py:362-392 | What `run` does to the counter, as a definition. `RunCounterEffect` characterises it |
| BookmarkSync.DeleteOutcome | main/sabnzbd/newzbin.py:394-399 | The delete branch on a 200, as a definition. `DeleteOnlyWhenConfirmed` and `DeleteKeepsNoDups` state its properties |
| BookmarkSync.FetchOutcome | main/sabnzbd/newzbin.py:400-409 | The fetch branch on a 200, as a definition. `FetchAppendsNew`, `FetchTwiceAddsNothing`, `FetchOfNumbersNeverRaises` and `FetchKeepsNoDups` state its properties |
| BookmarkSync.RunOutcome | main/sabnzbd/newzbin.py:369-411 | One `run` on the list, as a definition. `OnlyOkChangesList`, `DeleteOnlyWhenConfirmed`, `EmptyDeleteIsFetch` and `RunKeepsNoDups` state its properties |
| BookmarkSync.RunKeepsNoDups | main/sabnzbd/newzbin.py:394-409 | No `run` puts a duplicate into a list that has none, whatever the reply |
| BookmarkSync.DeleteKeepsNoDups | main/sabnzbd/newzbin.py:394-399 | The delete branch keeps a list free of duplicates |
| BookmarkSync.FetchKeepsNoDups | main/sabnzbd/newzbin.py:400-409 | The fetch branch keeps a list free of duplicates |
| BookmarkSync.OnlyOkChangesList | main/sabnzbd/newzbin.py:362-411 | Only a 200 reply changes the list, on a fetch as on a delete |
| BookmarkSync.FetchAppendsNew | main/sabnzbd/newzbin.py:400-409 | A fetch keeps the listed ids in place as a prefix. It appends only new, non-empty msgids of the reply, so a list without duplicates keeps none. When nothing raises, it appends the new msgids in reply order, each once, and then lists every msgid of the reply |
| BookmarkSync.FetchTwiceAddsNothing | main/sabnzbd/newzbin.py:400-409 | Fetching the same reply again changes nothing and adds no msgid |
| BookmarkSync.FetchOfNumbersNeverRaises | main/sabnzbd/newzbin.py:406-409 | When every msgid of the reply is a number, the fetch does not raise |
| BookmarkSync.Bookmarks.constructor | main/sabnzbd/newzbin.py:331-334 | The list is the loaded one, or empty when nothing was loaded |
| BookmarkSync.Bookmarks.Run | main/sabnzbd/newzbin.py:337-414 | The new list and the branch taken are `RunOutcome` of the old list. The counter is updated by the request's effect and stays in range |
| BookmarkSync.Bookmarks.DeleteReply | main/sabnzbd/newzbin.py:394-399 | The delete branch on a 200 gives `DeleteOutcome` |
| BookmarkSync.Bookmarks.FetchReply | main/sabnzbd/newzbin.py:400-409 | The fetch branch on a 200 gives `FetchOutcome` |
| BookmarkSync.Bookmarks.FetchLines | main/sabnzbd/newzbin.py:401-409 | The in-place loop over the reply lines appends `Merge` of the old list, and reports what `Merge` says: the ids handed on, and whether it raised |
| BookmarkSync.Bookmarks.DelBookmark | main/sabnzbd/newzbin.py:422-425 | An unlisted msgid sends no request and changes nothing. A listed one runs the delete |
| BookmarkSync.DeleteBookmark | main/sabnzbd/newzbin.py:79-82 | Nothing happens unless the bookmark object exists and both the bookmark and the unbookmark settings are on. Then it is `del_bookmark`: an unlisted msgid changes neither the list nor the counter, and a listed one runs the delete and updates the counter by the request's effect |
| BookmarkSync.Bookmarks.BookmarksList | main/sabnzbd/newzbin.py:419-420 | Returns the list, as a definition |

## Left out

- The HTTP and HTTPS connection, SSL detection, form encoding, the request
  headers and `response.read()` are I/O. The whole exchange is the
  `Transport` input value.
- Threads and locks are not modelled. This covers `Thread`, the blocking of
  `Queue.get` (a `Waiting` phase here), `BOOK_LOCK` with `@synchronized`,
  and a `stop()` that lands in the middle of a sleep. The worker is modelled
  as a single-threaded step function, with `grab` and `stop` called between
  passes.
- Real time is not modelled. `time.sleep` is a count of seconds slept.
- `sanitize_foldername`, `name_fixer` and `CatConvert` are uninterpreted
  parameters.
- `insert_future_nzo` is the boolean `insertOk`. `remove_nzo`'s effect on
  the job queue is recorded only as the `InsertFailed` result.
- The repair, unpack, delete, script and priority options of the job
  (`get_repair_opts`, `opts_to_pp`, `get_script`, `get_priority`, and the
  options `cat_to_opts` returns besides the category) are left out. They
  are external and only passed through.
- Grabber.JobCategory: the category `cat_to_opts` returns is a parameter
  function of the category alone, not of the options it is given with it.
- `bad_fetch` is recorded only as the `Abandoned` result.
- `add_msgid` is recorded only as the list of msgids handed to it.
- `get_msgids` is the constructor's `pending` argument.
- `load_data` is the constructor's `loaded` argument. `save` and
  `bookmarks_save` (`save_data`) are storage I/O and are left out.
- Logging, the `T()` translations and `osx.sendGrowlMsg` are left out.
  They do not affect behaviour.
- The singleton wrappers `bookmarks_init`, `getBookmarksNow`,
  `getBookmarksList`, `init_grabber`, `start_grabber`, `stop_grabber` and
  `grab` (lines 53-119) are left out. Each only forwards to the modelled
  method when the singleton exists. `stop_grabber`'s `join` is a thread
  operation.
- `response.getheader` matches header names without regard to case. That
  lookup is part of the transport, which hands the model each header's
  value or `None`.
- `bookmarksList` returns the list object itself. Later changes show
  through that reference. The model returns the value only and does not
  capture this aliasing.
- `del_bookmark` applies `str(msgid)`, which is the identity on the string
  msgids modelled here. Integer msgids from callers are left out.
- The `self.__busy` flag that `run` sets is never read, and is left out.
- BookmarkSync.Merge: the model states which msgids `int()` accepts. It does
  not compute the integer value handed to `add_msgid`.
- DirectNzb.FirstWait: the `\d+` group is ASCII digits only, as in a Python 2
  byte-string pattern. Unicode digits are not considered.
- The body of a success is carried opaquely. Its NZB content is not parsed
  here.
