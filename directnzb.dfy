/**
 * DirectNZB: fetching one report from the newzbin report service and
 * classifying the reply (`_grabnzb`). The reply is classified by a pure
 * function into retry-after-N-seconds, a permanent failure, a success with a
 * normalised `.nzb` file name, or an exception; the one side effect is on the
 * soft-failure counter.
 */
module DirectNzb {
  import opened Builtins
  import opened Dampener

  /** The headers of a DirectNZB reply (`response.getheader(...)`, `None` when absent) and its body. */
  datatype Reply = Reply(
    rcode: Option<string>,     // X-DNZB-RCode
    rtext: Option<string>,     // X-DNZB-RText
    name: Option<string>,      // X-DNZB-Name
    category: Option<string>,  // X-DNZB-Category
    moreInfo: Option<string>,  // X-DNZB-MoreInfo
    body: string)

  /** What the transport gives back: an exception while connecting or asking, or a reply. */
  datatype Transport = TransportError | Response(reply: Reply)

  /** Why a reply is a permanent failure (one log message each). */
  datatype FailReason =
    | ProtocolError  // neither X-DNZB-RCode nor X-DNZB-RText
    | NoCredit       // 402, not a premium account
    | NotAuthorised  // 401, bad user name or password
    | BadReport      // 400 or 404
    | UnknownError   // any other code but 200
    | MissingInfo    // 200 without X-DNZB-Name or X-DNZB-Category

  /**
   * The value `_grabnzb` returns, as a tagged variant of its 4-tuple:
   * `(delay, None, None, None)`, `(None, None, None, None)`,
   * `(filename, data, category, nzo_info)`, or an exception it raises.
   */
  datatype Grab =
    | Retry(delay: int)
    | Fail(reason: FailReason)
    | Success(filename: string, data: string, category: string, moreInfo: Option<string>)
    | Raised

  /** The delay after a transport error or a 500/503 reply. */
  const SoftRetryDelay: int := 300

  /** The longest wait a 450 reply can impose, before the extra second. */
  const MaxWait: int := 60

  /** File names longer than this are cut. */
  const NameCap: nat := 80

  /** The characters `strip('. ')` removes. */
  const NameJunk: set<char> := {'.', ' '}

  // ---------------------------------------------------------------------------
  // The 450 wait parser: re.findall('wait (\d+) seconds', rtext)[0]
  // ---------------------------------------------------------------------------

  /** Length of the run of decimal digits `s` starts with. */
  function DigitRun(s: string): (k: nat)
    ensures k <= |s|
    ensures AllDigits(s[..k])
    ensures k < |s| ==> !IsDigit(s[k])
  {
    if |s| > 0 && IsDigit(s[0]) then
      var k' := DigitRun(s[1..]);
      assert s[..k' + 1] == [s[0]] + s[1..][..k'];
      1 + k'
    else
      0
  }

  /**
   * The pattern `wait (\d+) seconds` matches at position `j` of `s`. The greedy
   * `\d+` can only end where the digits end, since " seconds" starts with a space.
   */
  predicate MatchesAt(s: string, j: int)
  {
    0 <= j && j + 5 <= |s| && s[j..j + 5] == "wait "
    && var k := DigitRun(s[j + 5..]);
    k >= 1 && StartsWith(s[j + 5 + k..], " seconds")
  }

  /** `int()` of the group matched at `j`. */
  function WaitValue(s: string, j: int): nat
    requires MatchesAt(s, j)
  {
    var k := DigitRun(s[j + 5..]);
    DecimalValue(s[j + 5..][..k])
  }

  /** The value of the leftmost match at or after position `i`, as `findall(...)[0]` gives it. */
  function FirstWait(s: string, i: nat): (r: Option<nat>)
    requires i <= |s|
    ensures r.Some? <==> exists j :: i <= j < |s| && MatchesAt(s, j)
    ensures r.Some? ==> exists j :: (i <= j < |s| && MatchesAt(s, j) && r.value == WaitValue(s, j)
      && forall k :: i <= k < j ==> !MatchesAt(s, k))
    decreases |s| - i
  {
    if i == |s| then None
    else if MatchesAt(s, i) then Some(WaitValue(s, i))
    else FirstWait(s, i + 1)
  }

  /**
   * The retry delay for a 450 reply: the first `wait N seconds` in the status
   * text, 60 when there is none (or no text at all), at most 60, plus one.
   */
  function WaitDelay(rtext: Option<string>): (d: int)
    ensures 1 <= d <= MaxWait + 1
    ensures rtext.None? ==> d == MaxWait + 1
    ensures rtext.Some? && (forall j :: 0 <= j < |rtext.value| ==> !MatchesAt(rtext.value, j)) ==> d == MaxWait + 1
    ensures forall j :: (rtext.Some? && 0 <= j < |rtext.value| && MatchesAt(rtext.value, j)
      && (forall k :: 0 <= k < j ==> !MatchesAt(rtext.value, k))
      ==> d == Min(WaitValue(rtext.value, j), MaxWait) + 1)
  {
    var wait := if rtext.None? then MaxWait
      else match FirstWait(rtext.value, 0)
        case None => MaxWait
        case Some(w) => w;
    var wait := if wait > MaxWait then MaxWait else wait;
    wait + 1
  }

  // ---------------------------------------------------------------------------
  // The file name cap
  // ---------------------------------------------------------------------------

  /**
   * The job file name for a sanitized report name: above 80 characters it is
   * cut to its first 79 and stripped of dots and spaces at both ends; then
   * ".nzb" is appended.
   */
  function CapName(name: string): (r: string)
    ensures EndsWith(r, ".nzb")
    ensures |name| <= NameCap ==> r == name + ".nzb"
    ensures |name| > NameCap ==> (|r| <= NameCap - 1 + 4
      && r[..|r| - 4] == Strip(name[..NameCap - 1], NameJunk))
  {
    var base := if |name| > NameCap then Strip(name[..NameCap - 1], NameJunk) else name;
    var r := base + ".nzb";
    assert r[..|r| - 4] == base;
    r
  }

  /**
   * A cut name keeps no dot or space at either end, and what was dropped of
   * its first 79 characters is only dots and spaces.
   */
  lemma CapNameBase(name: string)
    requires |name| > NameCap
    ensures var r := CapName(name); var base := r[..|r| - 4];
      var a := StripStart(name[..NameCap - 1], NameJunk);
      a + |base| <= NameCap - 1 && base == name[a..a + |base|]
      && (base == [] || (base[0] !in NameJunk && base[|base| - 1] !in NameJunk))
      && (forall k :: 0 <= k < a ==> name[k] in NameJunk)
      && (forall k :: a + |base| <= k < NameCap - 1 ==> name[k] in NameJunk)
  {
    var t := name[..NameCap - 1];
    var base := Strip(t, NameJunk);
    var a := StripStart(t, NameJunk);
    assert forall k :: 0 <= k < NameCap - 1 ==> t[k] == name[k];
    assert base == t[a..a + |base|];
  }

  // ---------------------------------------------------------------------------
  // Classification
  // ---------------------------------------------------------------------------

  /**
   * What the worker may rely on in a result of `_grabnzb`: a retry delay is
   * never 0 (so it is taken as a retry), and a file name ends in ".nzb".
   */
  predicate WellFormed(g: Grab)
  {
    (g.Retry? ==> g.delay >= 1) && (g.Success? ==> EndsWith(g.filename, ".nzb"))
  }

  /** The outcome of `_grabnzb` for one transport result; `sanitize` is `sanitize_foldername`. */
  function Classify(t: Transport, sanitize: string -> string): (g: Grab)
    ensures WellFormed(g)
  {
    match t
    case TransportError => Retry(SoftRetryDelay)
    case Response(r) =>
      if !(Truthy(r.rcode) || Truthy(r.rtext)) then Fail(ProtocolError)
      else if r.rcode == Some("500") || r.rcode == Some("503") then Retry(SoftRetryDelay)
      else if r.rcode == Some("450") then Retry(WaitDelay(r.rtext))
      // `None in ('402')` raises TypeError: a string's `in` needs a string on its left
      else if r.rcode.None? then Raised
      else if IsSubstring(r.rcode.value, "402") then Fail(NoCredit)
      else if IsSubstring(r.rcode.value, "401") then Fail(NotAuthorised)
      else if r.rcode.value == "400" || r.rcode.value == "404" then Fail(BadReport)
      else if r.rcode.value != "200" then Fail(UnknownError)
      else if !(Truthy(r.name) && Truthy(r.category)) then Fail(MissingInfo)
      else Success(CapName(sanitize(r.name.value)), r.body, r.category.value, r.moreInfo)
  }

  /** What `_grabnzb` does to the soft-failure counter. */
  function CounterEffect(t: Transport): Dampener.Effect
  {
    match t
    case TransportError => SoftFailure
    case Response(r) =>
      if !(Truthy(r.rcode) || Truthy(r.rtext)) then NoEffect
      else if r.rcode == Some("500") || r.rcode == Some("503") then SoftFailure
      else Healthy
  }

  /** `_grabnzb(msgid)` once the transport has answered: classify, and feed the dampener. */
  method GrabNzb(d: FailureDampener, t: Transport, sanitize: string -> string) returns (g: Grab)
    modifies d
    ensures g == Classify(t, sanitize)
    ensures d.failures == After(old(d.failures), CounterEffect(t))
    ensures old(d.Valid()) ==> d.Valid()
  {
    d.Record(CounterEffect(t));
    g := Classify(t, sanitize);
  }

  /**
   * A name ending in ".nzb" is no number for `int()`: the worker's
   * `int(filename)` on such a name raises.
   */
  lemma NzbNameIsNoInt(name: string)
    requires EndsWith(name, ".nzb")
    ensures !IsPyInt(name)
  {
    var n := |name|;
    assert name[n - 1] == 'b' by { assert name[n - 4..][3] == 'b'; }
    IntCharsOnly(name, BeforeNumber);
  }

  /** A status code is one of the codes the first branches test for. */
  predicate IsCode(rcode: Option<string>, code: string)
  {
    rcode == Some(code)
  }

  /**
   * Soft failures: a transport exception or a 500/503 reply is a retry after
   * 300 seconds and counts as a soft failure; those are the only retries after
   * 300 seconds, and every other retry comes from a 450 reply.
   */
  lemma SoftFailuresRetry300(t: Transport, sanitize: string -> string)
    ensures (t.TransportError? || IsCode(t.reply.rcode, "500") || IsCode(t.reply.rcode, "503"))
      ==> Classify(t, sanitize) == Retry(SoftRetryDelay) && CounterEffect(t) == SoftFailure
    ensures CounterEffect(t) == SoftFailure ==> Classify(t, sanitize) == Retry(SoftRetryDelay)
    ensures Classify(t, sanitize).Retry? <==>
      (t.TransportError? || IsCode(t.reply.rcode, "500") || IsCode(t.reply.rcode, "503")
       || IsCode(t.reply.rcode, "450"))
  {
  }

  /** Every reply that passes the header check and is no 500/503 resets the counter. */
  lemma HealthyRepliesReset(t: Transport, sanitize: string -> string)
    requires t.Response? && (Truthy(t.reply.rcode) || Truthy(t.reply.rtext))
    requires !IsCode(t.reply.rcode, "500") && !IsCode(t.reply.rcode, "503")
    ensures CounterEffect(t) == Healthy
    ensures Classify(t, sanitize).Retry? ==> IsCode(t.reply.rcode, "450")
  {
  }

  /** Rate limiting: a 450 reply asks for a retry after between 1 and 61 seconds. */
  lemma RateLimitDelay(t: Transport, sanitize: string -> string)
    requires t.Response? && IsCode(t.reply.rcode, "450")
    ensures Classify(t, sanitize) == Retry(WaitDelay(t.reply.rtext))
    ensures 1 <= Classify(t, sanitize).delay <= MaxWait + 1
  {
  }

  /** Every retry delay `_grabnzb` hands out is positive, so the worker always takes it as a retry. */
  lemma RetryDelayPositive(t: Transport, sanitize: string -> string)
    ensures Classify(t, sanitize).Retry? ==>
      Classify(t, sanitize).delay == SoftRetryDelay || 1 <= Classify(t, sanitize).delay <= MaxWait + 1
  {
  }

  /** The permanent failures, none of which is ever retried. */
  lemma PermanentFailures(t: Transport, sanitize: string -> string)
    requires t.Response?
    ensures !(Truthy(t.reply.rcode) || Truthy(t.reply.rtext)) ==> Classify(t, sanitize) == Fail(ProtocolError)
    ensures IsCode(t.reply.rcode, "402") ==> Classify(t, sanitize) == Fail(NoCredit)
    ensures IsCode(t.reply.rcode, "401") ==> Classify(t, sanitize) == Fail(NotAuthorised)
    ensures (IsCode(t.reply.rcode, "400") || IsCode(t.reply.rcode, "404")) ==> Classify(t, sanitize) == Fail(BadReport)
    ensures t.reply.rcode.Some? && t.reply.rcode.value !in {"200", "450", "500", "503"} ==> Classify(t, sanitize).Fail?
    ensures IsCode(t.reply.rcode, "200") && !(Truthy(t.reply.name) && Truthy(t.reply.category))
      ==> Classify(t, sanitize) == Fail(MissingInfo)
  {
    var r := t.reply;
    if IsCode(r.rcode, "402") {
      assert IsSubstring("402", "402") by { assert StartsWith("402", "402"); }
    }
    if IsCode(r.rcode, "401") {
      assert IsSubstring("401", "401") by { assert StartsWith("401", "401"); }
      assert !IsSubstring("401", "402") by { SubstringOfSameLength("401", "402"); }
    }
    if IsCode(r.rcode, "400") || IsCode(r.rcode, "404") {
      SubstringOfSameLength(r.rcode.value, "402");
      SubstringOfSameLength(r.rcode.value, "401");
    }
    if IsCode(r.rcode, "200") {
      SubstringOfSameLength(r.rcode.value, "402");
      SubstringOfSameLength(r.rcode.value, "401");
    }
  }

  /**
   * A success comes only from a 200 reply with a name and a category, and its
   * file name is the capped name of the sanitized report name.
   */
  lemma SuccessShape(t: Transport, sanitize: string -> string)
    requires Classify(t, sanitize).Success?
    ensures t.Response? && IsCode(t.reply.rcode, "200")
    ensures Truthy(t.reply.name) && Truthy(t.reply.category)
    ensures var g := Classify(t, sanitize);
      g.filename == CapName(sanitize(t.reply.name.value)) && EndsWith(g.filename, ".nzb")
      && g.category == t.reply.category.value && g.data == t.reply.body && g.moreInfo == t.reply.moreInfo
  {
  }

  /**
   * An exception comes out of `_grabnzb` exactly when X-DNZB-RCode is absent
   * and X-DNZB-RText is present.
   */
  lemma RaisedExactly(t: Transport, sanitize: string -> string)
    ensures Classify(t, sanitize) == Raised <==> t.Response? && t.reply.rcode.None? && Truthy(t.reply.rtext)
  {
  }

  /**
   * The substring tests of `rcode in ('402')` and `rcode in ('401')` are
   * equality for three-character codes, but accept two-character codes too:
   * "40" is reported as a credit problem, "01" as an authorisation problem, and
   * an empty code with a status text as a credit problem.
   */
  lemma SubstringCodeQuirk(rtext: Option<string>, name: Option<string>, cat: Option<string>,
                           more: Option<string>, body: string, sanitize: string -> string)
    requires Truthy(rtext)
    ensures Classify(Response(Reply(Some("40"), rtext, name, cat, more, body)), sanitize) == Fail(NoCredit)
    ensures Classify(Response(Reply(Some("01"), rtext, name, cat, more, body)), sanitize) == Fail(NotAuthorised)
    ensures Classify(Response(Reply(Some(""), rtext, name, cat, more, body)), sanitize) == Fail(NoCredit)
  {
    assert IsSubstring("40", "402") by { assert StartsWith("402", "40"); }
    assert IsSubstring("01", "401") by { assert StartsWith("401"[1..], "01"); }
    assert !IsSubstring("01", "402") by {
      assert !StartsWith("402", "01") by { assert "402"[..2][0] == '4'; }
      assert "402"[1..] == "02";
      assert !StartsWith("02", "01") by { assert "02"[..2][1] == '2'; }
      assert "02"[1..] == "2";
      assert !IsSubstring("01", "2") by {
        if IsSubstring("01", "2") { SubstringNoLonger("01", "2"); }
      }
    }
    assert IsSubstring("", "402") by { assert StartsWith("402", ""); }
  }

  /** A run of digits followed by a non-digit (or nothing) is exactly what `DigitRun` measures. */
  lemma {:induction false} DigitRunOfDigits(ds: string, rest: string)
    requires AllDigits(ds)
    requires rest == [] || !IsDigit(rest[0])
    ensures DigitRun(ds + rest) == |ds|
  {
    if ds != [] {
      assert (ds + rest)[1..] == ds[1..] + rest;
      DigitRunOfDigits(ds[1..], rest);
    }
  }

  /** A status text that starts with a match gives that match's delay. */
  lemma LeadingWait(s: string)
    requires MatchesAt(s, 0)
    ensures WaitDelay(Some(s)) == Min(WaitValue(s, 0), MaxWait) + 1
  {
    assert FirstWait(s, 0) == Some(WaitValue(s, 0));
  }

  /** "wait N seconds" matches at its start, with the value of N. */
  lemma WaitMatchAtStart(ds: string, s: string)
    requires |ds| >= 1 && AllDigits(ds) && s == "wait " + ds + " seconds"
    ensures MatchesAt(s, 0) && WaitValue(s, 0) == DecimalValue(ds)
  {
    var rest := " seconds";
    assert s == "wait " + (ds + rest);
    assert s[0..5] == "wait ";
    assert s[5..] == ds + rest;
    DigitRunOfDigits(ds, rest);
    assert (ds + rest)[..|ds|] == ds;
    assert s[5 + |ds|..] == rest;
  }

  /**
   * For the status text "wait N seconds" the delay is min(N, 60) + 1: "wait 37
   * seconds" gives 38, "wait 120 seconds" gives 61.
   */
  lemma WaitText(ds: string)
    requires |ds| >= 1 && AllDigits(ds)
    ensures WaitDelay(Some("wait " + ds + " seconds")) == Min(DecimalValue(ds), MaxWait) + 1
  {
    var s := "wait " + ds + " seconds";
    WaitMatchAtStart(ds, s);
    LeadingWait(s);
  }

  /**
   * End to end: a 200 reply named "My Cool Release" in "Movies" gives the job
   * file "My Cool Release.nzb" when sanitizing leaves the name alone; a 404 is a
   * permanent failure.
   */
  lemma EndToEndExamples(body: string, sanitize: string -> string)
    requires sanitize("My Cool Release") == "My Cool Release"
    ensures Classify(Response(Reply(Some("200"), Some("OK"), Some("My Cool Release"), Some("Movies"), None, body)), sanitize)
      == Success("My Cool Release.nzb", body, "Movies", None)
    ensures Classify(Response(Reply(Some("404"), Some("Not Found"), None, None, None, body)), sanitize)
      == Fail(BadReport)
  {
    SubstringOfSameLength("200", "402");
    SubstringOfSameLength("200", "401");
    SubstringOfSameLength("404", "402");
    SubstringOfSameLength("404", "401");
  }
}
