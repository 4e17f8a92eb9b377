/**
 * The bookmark mirror (`Bookmarks`): an ordered list of the report ids the
 * user has bookmarked on newzbin. A fetch appends the ids of the reply that
 * are new, in reply order and each once; a delete removes one id when the
 * server confirms it. Nothing else changes the list.
 */
module BookmarkSync {
  import opened Builtins
  import opened Dampener

  /** An HTTP status as httplib parses it; a status outside 100..999 makes `getresponse` raise. */
  type HttpStatus = s: int | 100 <= s <= 999 witness 200

  /** What the transport gives back: an exception while connecting or asking, or a status and a body. */
  datatype Transport = TransportError | Response(status: HttpStatus, body: string)

  /** What one `run` did, by the branch it took. */
  datatype RunResult =
    | Unreachable                   // the request raised
    | NoBookmarks                   // 204
    | NotAuthorised                 // 401 or 403
    | NoCredit                      // 402
    | ServerProblem                 // 500 or 503
    | Deleted(msgid: string)        // 200, body starts with '1'
    | NotDeleted(msgid: string)     // 200, any other body
    | Fetched(added: seq<string>)   // 200 on a fetch: the new ids handed to `add_msgid`
    | Raised(added: seq<string>)    // a ValueError left `run` after handing these to `add_msgid`
    | UnknownError(rcode: string)   // any other status

  function DigitChar(d: int): (c: char)
    requires 0 <= d <= 9
    ensures '0' <= c <= '9' && c as int - '0' as int == d
  {
    ('0' as int + d) as char
  }

  /** `str(response.status)` */
  function StatusText(s: HttpStatus): (r: string)
    ensures |r| == 3 && AllDigits(r)
  {
    [DigitChar(s / 100), DigitChar(s % 100 / 10), DigitChar(s % 10)]
  }

  /**
   * Comparing status texts is comparing statuses, and for them the substring
   * test of `rcode in ('402')` is equality too.
   */
  lemma StatusTextIs(s: HttpStatus, c: HttpStatus)
    ensures StatusText(s) == StatusText(c) <==> s == c
    ensures IsSubstring(StatusText(s), StatusText(c)) <==> s == c
  {
    if StatusText(s) == StatusText(c) {
      assert StatusText(s)[0] == StatusText(c)[0] && StatusText(s)[1] == StatusText(c)[1]
        && StatusText(s)[2] == StatusText(c)[2];
      assert s / 100 == c / 100 && s % 100 / 10 == c % 100 / 10 && s % 10 == c % 10;
      assert s == s / 100 * 100 + s % 100;
      assert c == c / 100 * 100 + c % 100;
    }
    SubstringOfSameLength(StatusText(s), StatusText(c));
  }

  /** The texts of the statuses the bookmark reply distinguishes. */
  lemma KnownStatusTexts()
    ensures StatusText(200) == "200" && StatusText(204) == "204"
    ensures StatusText(401) == "401" && StatusText(402) == "402" && StatusText(403) == "403"
    ensures StatusText(500) == "500" && StatusText(503) == "503"
  {
  }

  /** Every test `run` makes on `rcode` is a test on the status itself. */
  lemma RcodeTests(s: HttpStatus)
    ensures (StatusText(s) == "200") == (s == 200) && (StatusText(s) == "204") == (s == 204)
    ensures (StatusText(s) == "401") == (s == 401) && (StatusText(s) == "403") == (s == 403)
    ensures IsSubstring(StatusText(s), "402") == (s == 402)
    ensures (StatusText(s) == "500") == (s == 500) && (StatusText(s) == "503") == (s == 503)
  {
    KnownStatusTexts();
    StatusTextIs(s, 200);
    StatusTextIs(s, 204);
    StatusTextIs(s, 401);
    StatusTextIs(s, 402);
    StatusTextIs(s, 403);
    StatusTextIs(s, 500);
    StatusTextIs(s, 503);
  }

  // ---------------------------------------------------------------------------
  // The fetch diff
  // ---------------------------------------------------------------------------

  /**
   * The msgid of one reply line: the text before its first tab when the line
   * holds a second tab, so that `line.split('\t', 2)` unpacks into
   * `msgid, size, text` (`LineIdIsSplitField`). `""` stands for a line that
   * does not unpack, whose msgid is `None`: like an empty first field it is
   * false.
   */
  function LineId(line: string): string
  {
    if '\t' !in line then ""
    else
      var i := IndexOf(line, '\t');
      if '\t' in line[i + 1..] then line[..i] else ""
  }

  /**
   * A true msgid is the text before the first tab of a line that holds a
   * second tab, and every such line with a non-empty first field has one.
   */
  lemma LineIdShape(line: string)
    ensures var r := LineId(line);
      (r != "" ==> '\t' !in r && StartsWith(line, r + ['\t']) && '\t' in line[|r| + 1..])
      && (('\t' in line && line[0] != '\t' && '\t' in line[IndexOf(line, '\t') + 1..]) ==> r != "")
  {
    if LineId(line) != "" {
      var i := IndexOf(line, '\t');
      assert line[..i + 1] == line[..i] + ['\t'];
    }
  }

  /** `LineId` is the first name of `msgid, size, text = line.split('\t', 2)`, or false when that raises. */
  lemma LineIdIsSplitField(line: string)
    ensures LineId(line) == match SplitThree(line, '\t') case Some((m, _, _)) => m case None => ""
  {
    match SplitThree(line, '\t')
    case Some((m, b, c)) =>
      assert line == m + ['\t'] + (b + ['\t'] + c);
      assert line[|m|] == '\t' && line[..|m|] == m;
    case None =>
  }

  /** The msgids of the reply lines, in order (`LineIdsAt`). */
  function LineIds(lines: seq<string>): (ids: seq<string>)
    ensures |ids| == |lines|
  {
    if lines == [] then [] else LineIds(lines[..|lines| - 1]) + [LineId(lines[|lines| - 1])]
  }

  lemma {:induction false} LineIdsPrefix(lines: seq<string>, i: nat)
    requires i <= |lines|
    ensures LineIds(lines[..i]) == LineIds(lines)[..i]
    decreases |lines|
  {
    if i < |lines| {
      assert lines[..|lines| - 1][..i] == lines[..i];
      LineIdsPrefix(lines[..|lines| - 1], i);
    } else {
      assert lines[..i] == lines;
    }
  }

  /** The `i`-th msgid is the msgid of the `i`-th reply line. */
  lemma LineIdsAt(lines: seq<string>, i: nat)
    requires i < |lines|
    ensures LineIds(lines)[i] == LineId(lines[i])
  {
    LineIdsPrefix(lines, i + 1);
    assert lines[..i + 1][..i] == lines[..i];
  }

  /** What the fetch loop appends to the list, and whether `int(msgid)` raised on the last of them. */
  datatype MergeResult = MergeResult(appended: seq<string>, raised: bool)

  /**
   * The loop over the reply lines, as a function of the list it starts from
   * and the line msgids: each true msgid not yet in the list is appended, and
   * handed to `add_msgid` as `int(msgid)`, which raises for a non-number and
   * ends the loop after the append.
   */
  function Merge(known: seq<string>, ids: seq<string>): MergeResult
    decreases |ids|
  {
    if ids == [] then MergeResult([], false)
    else
      var m := Merge(known, ids[..|ids| - 1]);
      var x := ids[|ids| - 1];
      if m.raised || x == "" || x in known || x in m.appended then m
      else MergeResult(m.appended + [x], !IsPyInt(x))
  }

  /**
   * The fetch appends only true msgids of the reply that were not listed,
   * each once.
   */
  lemma {:induction false} MergeAppendsFresh(known: seq<string>, ids: seq<string>)
    ensures var m := Merge(known, ids);
      NoDups(m.appended)
      && forall k :: 0 <= k < |m.appended| ==> m.appended[k] != "" && m.appended[k] !in known && m.appended[k] in ids
    decreases |ids|
  {
    if ids != [] {
      var init := ids[..|ids| - 1];
      MergeAppendsFresh(known, init);
      assert forall k :: 0 <= k < |init| ==> init[k] == ids[k];
      var m := Merge(known, init);
      var x := ids[|ids| - 1];
      if !(m.raised || x == "" || x in known || x in m.appended) {
        var a := m.appended + [x];
        assert forall k :: 0 <= k < |m.appended| ==> a[k] == m.appended[k];
      }
    }
  }

  /** Unless `int()` raised, every true msgid of the reply is listed afterwards. */
  lemma {:induction false} MergeComplete(known: seq<string>, ids: seq<string>)
    ensures var m := Merge(known, ids);
      !m.raised ==> forall k :: 0 <= k < |ids| && ids[k] != "" ==> ids[k] in known || ids[k] in m.appended
    decreases |ids|
  {
    if ids != [] {
      var init := ids[..|ids| - 1];
      MergeComplete(known, init);
      assert forall k :: 0 <= k < |init| ==> init[k] == ids[k];
    }
  }

  /**
   * `int(msgid)` raised on the last appended msgid, and on none before it:
   * every msgid handed to `add_msgid` is a number.
   */
  lemma {:induction false} MergeRaisesOnNonNumber(known: seq<string>, ids: seq<string>)
    ensures var m := Merge(known, ids);
      (m.raised ==> |m.appended| > 0 && !IsPyInt(m.appended[|m.appended| - 1]))
      && forall k :: 0 <= k < |m.appended| - (if m.raised then 1 else 0) ==> IsPyInt(m.appended[k])
    decreases |ids|
  {
    if ids != [] {
      MergeRaisesOnNonNumber(known, ids[..|ids| - 1]);
    }
  }

  /** One turn of the fetch loop, on the msgid `ids[i]`. */
  lemma MergeStep(known: seq<string>, ids: seq<string>, i: nat)
    requires i < |ids|
    ensures var m := Merge(known, ids[..i]);
      var x := ids[i];
      Merge(known, ids[..i + 1])
        == if m.raised || x == "" || x in known || x in m.appended then m
           else MergeResult(m.appended + [x], !IsPyInt(x))
  {
    assert ids[..i + 1][..i] == ids[..i];
  }

  /** The msgids handed to `add_msgid`: all appended ones but one that raised. */
  function AddedIds(m: MergeResult): seq<string>
  {
    if m.raised && |m.appended| > 0 then m.appended[..|m.appended| - 1] else m.appended
  }

  /** Once `int()` has raised, later lines change nothing. */
  lemma {:induction false} MergeStopsAtRaise(known: seq<string>, ids: seq<string>, more: seq<string>)
    requires Merge(known, ids).raised
    ensures Merge(known, ids + more) == Merge(known, ids)
    decreases |more|
  {
    if more != [] {
      var all := ids + more;
      var init := ids + more[..|more| - 1];
      assert all[..|all| - 1] == init;
      MergeStopsAtRaise(known, ids, more[..|more| - 1]);
      assert Merge(known, init).raised;
      assert Merge(known, all) == Merge(known, init);
    } else {
      assert ids + more == ids;
    }
  }

  /** When every true msgid is already listed, a fetch appends nothing. */
  lemma {:induction false} MergeAllKnown(known: seq<string>, ids: seq<string>)
    requires forall k :: 0 <= k < |ids| && ids[k] != "" ==> ids[k] in known
    ensures Merge(known, ids) == MergeResult([], false)
    decreases |ids|
  {
    if ids != [] {
      MergeAllKnown(known, ids[..|ids| - 1]);
    }
  }

  /** The true msgids not in `known`, in order, repeats kept. */
  function Fresh(known: seq<string>, ids: seq<string>): seq<string>
  {
    if ids == [] then []
    else
      var x := ids[|ids| - 1];
      Fresh(known, ids[..|ids| - 1]) + (if x != "" && x !in known then [x] else [])
  }

  /** `xs` with every repeat dropped, first occurrences kept in order. */
  function Dedup(xs: seq<string>): seq<string>
  {
    if xs == [] then []
    else
      var d := Dedup(xs[..|xs| - 1]);
      var x := xs[|xs| - 1];
      if x in d then d else d + [x]
  }

  /**
   * Reference definition of the diff: when nothing raises, the fetch appends
   * the new msgids of the reply in reply order, each once.
   */
  lemma {:induction false} MergeIsDedupOfFresh(known: seq<string>, ids: seq<string>)
    requires !Merge(known, ids).raised
    ensures Merge(known, ids).appended == Dedup(Fresh(known, ids))
    decreases |ids|
  {
    if ids != [] {
      var init := ids[..|ids| - 1];
      var x := ids[|ids| - 1];
      assert !Merge(known, init).raised;
      MergeIsDedupOfFresh(known, init);
      var f := Fresh(known, init);
      if x != "" && x !in known {
        assert Fresh(known, ids) == f + [x];
        assert (f + [x])[..|f + [x]| - 1] == f;
      } else {
        assert Fresh(known, ids) == f;
      }
    }
  }

  // ---------------------------------------------------------------------------
  // One run
  // ---------------------------------------------------------------------------

  /** What `run` does to the soft-failure counter. */
  function CounterEffect(t: Transport): Effect
  {
    match t
    case TransportError => SoftFailure
    case Response(status, _) => if status == 500 || status == 503 then SoftFailure else Healthy
  }

  /**
   * A bookmark request resets the counter on every status but 500 and 503,
   * and counts a soft failure on those and on a transport error.
   */
  lemma RunCounterEffect(t: Transport)
    ensures CounterEffect(t) == Healthy <==> t.Response? && t.status != 500 && t.status != 503
    ensures CounterEffect(t) == SoftFailure <==> !(t.Response? && t.status != 500 && t.status != 503)
  {
  }

  /** A 200 reply to a delete of `x`. */
  function DeleteOutcome(known: seq<string>, x: string, body: string): (seq<string>, RunResult)
  {
    if !StartsWith(body, "1") then (known, NotDeleted(x))
    else if x in known then (RemoveFirst(known, x), Deleted(x))
    // `self.bookmarks.remove(delete)` raises ValueError
    else (known, Raised([]))
  }

  /** A 200 reply to a fetch: the body holds one `msgid<TAB>size<TAB>text` line per bookmark. */
  function FetchOutcome(known: seq<string>, body: string): (seq<string>, RunResult)
  {
    var m := Merge(known, ReplyIds(body));
    (known + m.appended, if m.raised then Raised(AddedIds(m)) else Fetched(m.appended))
  }

  /**
   * `run(delete)` on the list `known`: the new list and the branch taken. A
   * true `delete` asks the server to delete that bookmark, anything else
   * fetches the bookmark list. The tests on `rcode` are written on the status
   * they amount to (`RcodeTests`).
   */
  function RunOutcome(known: seq<string>, delete: Option<string>, t: Transport): (seq<string>, RunResult)
  {
    match t
    case TransportError => (known, Unreachable)
    case Response(status, body) =>
      if status == 204 then (known, NoBookmarks)
      else if status == 401 || status == 403 then (known, NotAuthorised)
      else if status == 402 then (known, NoCredit)
      else if status == 500 || status == 503 then (known, ServerProblem)
      else if status == 200 then
        if Truthy(delete) then DeleteOutcome(known, delete.value, body) else FetchOutcome(known, body)
      else (known, UnknownError(StatusText(status)))
  }

  /** The server confirms a delete: status 200 and a body starting with '1'. */
  predicate DeleteConfirmed(t: Transport)
  {
    t.Response? && t.status == 200 && StartsWith(t.body, "1")
  }

  /**
   * A listed bookmark leaves the list exactly when the server confirms the
   * delete; on any other reply (204, 401/403, 402, 500/503, an unknown status,
   * a transport error, or 200 with another body) the list stays as it was.
   */
  lemma DeleteOnlyWhenConfirmed(known: seq<string>, x: string, t: Transport)
    requires NoDups(known) && x in known && x != ""
    ensures var (l, r) := RunOutcome(known, Some(x), t);
      (x !in l <==> DeleteConfirmed(t))
      && (DeleteConfirmed(t) ==> l == RemoveFirst(known, x) && r == Deleted(x) && NoDups(l))
      && (!DeleteConfirmed(t) ==> l == known && !r.Deleted?)
  {
  }

  /**
   * `run('')` is a fetch, since an empty `delete` is false: deleting an empty
   * msgid that is listed fetches the bookmarks instead.
   */
  lemma EmptyDeleteIsFetch(known: seq<string>, t: Transport)
    ensures RunOutcome(known, Some(""), t) == RunOutcome(known, None, t)
    ensures t.Response? && t.status == 200 ==> RunOutcome(known, Some(""), t) == FetchOutcome(known, t.body)
  {
    match t
    case TransportError =>
    case Response(status, body) =>
      if status == 200 {
        assert !Truthy(Some(""));
      }
  }

  /** No `run` puts a duplicate into a list that has none. */
  lemma RunKeepsNoDups(known: seq<string>, delete: Option<string>, t: Transport)
    requires NoDups(known)
    ensures NoDups(RunOutcome(known, delete, t).0)
  {
    var l := RunOutcome(known, delete, t).0;
    if t.Response? && t.status == 200 {
      if Truthy(delete) {
        assert l == DeleteOutcome(known, delete.value, t.body).0;
        DeleteKeepsNoDups(known, delete.value, t.body);
      } else {
        assert l == FetchOutcome(known, t.body).0;
        FetchKeepsNoDups(known, t.body);
      }
    } else {
      OnlyOkChangesList(known, delete, t);
    }
  }

  lemma DeleteKeepsNoDups(known: seq<string>, x: string, body: string)
    requires NoDups(known)
    ensures NoDups(DeleteOutcome(known, x, body).0)
  {
  }

  lemma FetchKeepsNoDups(known: seq<string>, body: string)
    requires NoDups(known)
    ensures NoDups(FetchOutcome(known, body).0)
  {
    FetchAppendsNew(known, body);
  }

  /** Only a 200 reply changes the list, on a fetch as on a delete. */
  lemma OnlyOkChangesList(known: seq<string>, delete: Option<string>, t: Transport)
    requires !(t.Response? && t.status == 200)
    ensures RunOutcome(known, delete, t).0 == known
  {
  }

  /** The msgids of a fetch reply body. */
  function ReplyIds(body: string): seq<string>
  {
    LineIds(Split(body, '\n'))
  }

  /**
   * A fetch leaves the listed ids in place and appends only true msgids of the
   * reply that were not listed, so a list without duplicates keeps none; when
   * nothing raises, what it appends is the new msgids in reply order, each
   * once, and afterwards every msgid of the reply is listed.
   */
  lemma FetchAppendsNew(known: seq<string>, body: string)
    ensures var ids := ReplyIds(body);
      var (l, r) := FetchOutcome(known, body);
      |known| <= |l| && l[..|known|] == known
      && (NoDups(known) ==> NoDups(l))
      && (forall k :: |known| <= k < |l| ==> l[k] != "" && l[k] !in known && l[k] in ids)
      && (r.Fetched? ==> l[|known|..] == Dedup(Fresh(known, ids)))
      && (r.Fetched? ==> forall k :: 0 <= k < |ids| && ids[k] != "" ==> ids[k] in l)
  {
    var ids := ReplyIds(body);
    var m := Merge(known, ids);
    var l := known + m.appended;
    MergeAppendsFresh(known, ids);
    MergeComplete(known, ids);
    assert l[..|known|] == known && l[|known|..] == m.appended;
    assert forall k :: |known| <= k < |l| ==> l[k] == m.appended[k - |known|];
    if !m.raised {
      MergeIsDedupOfFresh(known, ids);
    }
    if NoDups(known) {
      forall i, j | 0 <= i < j < |l| ensures l[i] != l[j] {
        if j >= |known| && i < |known| {
          assert l[j] == m.appended[j - |known|];
        }
        if i >= |known| {
          assert l[i] == m.appended[i - |known|] && l[j] == m.appended[j - |known|];
        }
      }
    }
  }

  /**
   * Fetching the same reply twice changes nothing the second time and hands
   * no msgid to `add_msgid`.
   */
  lemma FetchTwiceAddsNothing(known: seq<string>, body: string)
    requires FetchOutcome(known, body).1.Fetched?
    ensures var l := FetchOutcome(known, body).0;
      FetchOutcome(l, body) == (l, Fetched([]))
  {
    var ids := ReplyIds(body);
    var m := Merge(known, ids);
    var l := known + m.appended;
    MergeComplete(known, ids);
    forall k | 0 <= k < |ids| && ids[k] != "" ensures ids[k] in l {
      assert ids[k] in known || ids[k] in m.appended;
    }
    MergeAllKnown(l, ids);
    assert l + [] == l;
  }

  /** A reply whose msgids are all numbers never makes the fetch raise. */
  lemma FetchOfNumbersNeverRaises(known: seq<string>, body: string)
    requires forall k :: 0 <= k < |ReplyIds(body)| && ReplyIds(body)[k] != "" ==> IsPyInt(ReplyIds(body)[k])
    ensures FetchOutcome(known, body).1.Fetched?
  {
    var ids := ReplyIds(body);
    var m := Merge(known, ids);
    MergeAppendsFresh(known, ids);
    MergeRaisesOnNonNumber(known, ids);
  }

  /** The bookmark list and the operations on it. */
  class Bookmarks {
    var bookmarks: seq<string>

    /** `__init__`: the list `load_data` gives back, or an empty list when it gives nothing. */
    constructor (loaded: Option<seq<string>>)
      ensures bookmarks == if loaded.Some? then loaded.value else []
    {
      if loaded.Some? && loaded.value != [] {
        bookmarks := loaded.value;
      } else {
        bookmarks := [];
      }
    }

    /** `bookmarksList()`: the list itself. */
    function BookmarksList(): seq<string>
      reads this
    {
      bookmarks
    }

    /** `run(delete)`, once the transport has answered with `t`. */
    method Run(d: FailureDampener, delete: Option<string>, t: Transport) returns (r: RunResult)
      modifies this, d
      ensures (bookmarks, r) == RunOutcome(old(bookmarks), delete, t)
      ensures d.failures == After(old(d.failures), CounterEffect(t))
      ensures old(d.Valid()) ==> d.Valid()
    {
      if t.TransportError? {
        var _ := d.WarnUser();
        return Unreachable;
      }
      var body := t.body;
      var rcode := StatusText(t.status);
      RcodeTests(t.status);
      if !(rcode == "500" || rcode == "503") {
        d.AccessOk();
      }
      if rcode == "204" {
        r := NoBookmarks;
      } else if rcode == "401" || rcode == "403" {
        r := NotAuthorised;
      } else if IsSubstring(rcode, "402") {
        r := NoCredit;
      } else if rcode == "500" || rcode == "503" {
        var _ := d.WarnUser();
        r := ServerProblem;
      } else if rcode == "200" {
        if Truthy(delete) {
          r := DeleteReply(delete.value, body);
        } else {
          r := FetchReply(body);
        }
      } else {
        r := UnknownError(rcode);
      }
    }

    /** The delete branch of `run` on a 200 reply. */
    method DeleteReply(x: string, body: string) returns (r: RunResult)
      modifies this
      ensures (bookmarks, r) == DeleteOutcome(old(bookmarks), x, body)
    {
      if StartsWith(body, "1") {
        if x in bookmarks {
          bookmarks := RemoveFirst(bookmarks, x);
          r := Deleted(x);
        } else {
          r := Raised([]);
        }
      } else {
        r := NotDeleted(x);
      }
    }

    /** The fetch branch of `run` on a 200 reply. */
    method FetchReply(body: string) returns (r: RunResult)
      modifies this
      ensures (bookmarks, r) == FetchOutcome(old(bookmarks), body)
    {
      var added, raised := FetchLines(Split(body, '\n'));
      r := if raised then Raised(added) else Fetched(added);
    }

    /**
     * The loop over the reply lines: appends the new msgids in order and
     * stops after the first one `int()` refuses.
     */
    method FetchLines(lines: seq<string>) returns (added: seq<string>, raised: bool)
      modifies this
      ensures bookmarks == old(bookmarks) + Merge(old(bookmarks), LineIds(lines)).appended
      ensures raised == Merge(old(bookmarks), LineIds(lines)).raised
      ensures added == AddedIds(Merge(old(bookmarks), LineIds(lines)))
    {
      ghost var known := bookmarks;
      ghost var ids := LineIds(lines);
      ghost var merged := MergeResult([], false);
      added := [];
      raised := false;
      var i := 0;
      while i < |lines| && !raised
        invariant 0 <= i <= |lines|
        invariant merged == Merge(known, ids[..i])
        invariant bookmarks == known + merged.appended
        invariant raised == merged.raised && added == AddedIds(merged)
      {
        MergeStep(known, ids, i);
        LineIdsAt(lines, i);
        var m := LineId(lines[i]);
        assert (m in bookmarks) == (m in known || m in merged.appended);
        merged := Merge(known, ids[..i + 1]);
        if m != "" && m !in bookmarks {
          bookmarks := bookmarks + [m];
          if IsPyInt(m) {
            added := added + [m];
          } else {
            raised := true;
          }
        }
        i := i + 1;
      }
      if raised {
        assert ids == ids[..i] + ids[i..];
        MergeStopsAtRaise(known, ids[..i], ids[i..]);
      } else {
        assert ids[..i] == ids;
      }
    }

    /** `del_bookmark(msgid)`: ask for the delete only when `msgid` is listed. */
    method DelBookmark(d: FailureDampener, msgid: string, t: Transport) returns (r: Option<RunResult>)
      modifies this, d
      ensures msgid !in old(bookmarks) ==> r.None? && bookmarks == old(bookmarks) && d.failures == old(d.failures)
      ensures msgid in old(bookmarks) ==>
        (r.Some? && (bookmarks, r.value) == RunOutcome(old(bookmarks), Some(msgid), t)
         && d.failures == After(old(d.failures), CounterEffect(t)))
    {
      if msgid in bookmarks {
        var res := Run(d, Some(msgid), t);
        r := Some(res);
      } else {
        r := None;
      }
    }
  }

  /**
   * The module-level `delete_bookmark(msgid)`: deletes only when there is a
   * bookmark object and both the bookmarks and the unbookmark settings are on.
   */
  method DeleteBookmark(b: Bookmarks?, bookmarksOn: bool, unbookmarkOn: bool,
                        d: FailureDampener, msgid: string, t: Transport) returns (r: Option<RunResult>)
    modifies b, d
    ensures !(b != null && bookmarksOn && unbookmarkOn) ==> r.None? && d.failures == old(d.failures)
    ensures b != null && !(bookmarksOn && unbookmarkOn) ==> b.bookmarks == old(b.bookmarks)
    ensures b != null && bookmarksOn && unbookmarkOn && msgid in old(b.bookmarks) ==>
      (r.Some? && (b.bookmarks, r.value) == RunOutcome(old(b.bookmarks), Some(msgid), t))
    ensures b != null && msgid !in old(b.bookmarks) ==> r.None? && b.bookmarks == old(b.bookmarks)
    ensures b != null && bookmarksOn && unbookmarkOn ==>
      d.failures == if msgid in old(b.bookmarks) then After(old(d.failures), CounterEffect(t)) else old(d.failures)
  {
    if b != null && bookmarksOn && unbookmarkOn {
      r := b.DelBookmark(d, msgid, t);
    } else {
      r := None;
    }
  }
}
