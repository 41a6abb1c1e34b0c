/** The older engine of telegram_bot.py (`message_handler`): the same round-trip loop,
    run on a fresh history for every message, with an ID pulled out of the user's text
    by a regular expression and injected into `get_*_by_id` calls whose arguments came
    back empty. Every failure of a single call becomes its `tool` message. */
module TelegramBot {
  import opened Wrappers
  import opened Json
  import opened Text
  import opened Conversation
  import opened RoundTrip

  // ---------------------------------------------------------------------------
  // The ID pattern, searched with IGNORECASE:
  //   (?:user|dealer|report|dvr|tvr|sales order|sales|order|id)\s*#?\s*(\d+)|(\d+)\s*$

  const Keywords: seq<string> := ["user", "dealer", "report", "dvr", "tvr", "sales order", "sales", "order", "id"]

  /** `int()` refuses decimal strings longer than this many digits. */
  const MaxIntDigits: nat := 4300

  predicate AllDigits(s: string) {
    forall i :: 0 <= i < |s| ==> IsDigit(s[i])
  }

  /** `\s*` from `p`: the end of the run of whitespace starting there. */
  function SkipSpaces(s: string, p: nat): (q: nat)
    requires p <= |s|
    ensures p <= q <= |s| && AllSpace(s[p..q]) && (q == |s| || !IsSpace(s[q]))
    decreases |s| - p
  {
    if p < |s| && IsSpace(s[p]) then
      var q := SkipSpaces(s, p + 1);
      assert s[p..q] == [s[p]] + s[p + 1..q];
      q
    else p
  }

  /** `\d+` from `p`, greedy: the end of the run of digits starting there. */
  function DigitRun(s: string, p: nat): (q: nat)
    requires p <= |s|
    ensures p <= q <= |s| && AllDigits(s[p..q]) && (q == |s| || !IsDigit(s[q]))
    decreases |s| - p
  {
    if p < |s| && IsDigit(s[p]) then
      var q := DigitRun(s, p + 1);
      assert s[p..q] == [s[p]] + s[p + 1..q];
      q
    else p
  }

  /** The keyword `kw` (lower-case) matches at `p`, ignoring ASCII case. */
  predicate KeywordAt(s: string, p: nat, kw: string) {
    p + |kw| <= |s| && forall k :: 0 <= k < |kw| ==> LowerChar(s[p + k]) == kw[k]
  }

  /** `\s*#?\s*(\d+)` from `q`: the captured digits. Once `\s*` stops, only a `#` or a
      digit can follow, so no backtracking can change the outcome. */
  function DigitsAfterKeyword(s: string, q: nat): (r: Option<string>)
    requires q <= |s|
    ensures r.Some? ==> |r.value| > 0 && AllDigits(r.value)
  {
    var a := SkipSpaces(s, q);
    var b := if a < |s| && s[a] == '#' then SkipSpaces(s, a + 1) else a;
    var e := DigitRun(s, b);
    if e > b then Some(s[b..e]) else None
  }

  /** `s[i..j]` is whitespace only. */
  predicate SpacesBetween(s: string, i: nat, j: nat)
    requires i <= j <= |s|
  {
    forall k :: i <= k < j ==> IsSpace(s[k])
  }

  /** `s[q..b]` can be consumed by `\s*#?\s*`: whitespace, with at most one `#` in it. */
  predicate SpacesAndHash(s: string, q: nat, b: nat)
    requires q <= b <= |s|
  {
    SpacesBetween(s, q, b)
    || exists h :: q <= h < b && s[h] == '#' && SpacesBetween(s, q, h) && SpacesBetween(s, h + 1, b)
  }

  /** `\s*` stops at the first character that is not whitespace ... */
  lemma SkipSpacesStops(s: string, p: nat, b: nat)
    requires p <= b < |s| && !IsSpace(s[b])
    ensures SkipSpaces(s, p) <= b
  {
  }

  /** ... and, after a stretch of whitespace only, exactly there. */
  lemma SkipSpacesPast(s: string, p: nat, b: nat)
    requires p <= b < |s| && !IsSpace(s[b]) && SpacesBetween(s, p, b)
    ensures SkipSpaces(s, p) == b
  {
    SkipSpacesStops(s, p, b);
  }

  /** `\s*#?\s*(\d+)` read as a pattern: when `s[q..b]` is whitespace with at most one
      `#` and a digit follows, the capture is the whole run of digits from `b`. Since
      that `b` is the only one possible, this is the one match the engine can find. */
  lemma DigitsAfterKeywordFound(s: string, q: nat, b: nat)
    requires q <= b < |s| && SpacesAndHash(s, q, b) && IsDigit(s[b])
    ensures DigitsAfterKeyword(s, q) == Some(s[b..DigitRun(s, b)])
  {
    if SpacesBetween(s, q, b) {
      DigitsAfterSpaces(s, q, b);
    } else {
      var h :| q <= h < b && s[h] == '#' && SpacesBetween(s, q, h) && SpacesBetween(s, h + 1, b);
      DigitsAfterHash(s, q, h, b);
    }
  }

  lemma DigitsAfterSpaces(s: string, q: nat, b: nat)
    requires q <= b < |s| && SpacesBetween(s, q, b) && IsDigit(s[b])
    ensures DigitsAfterKeyword(s, q) == Some(s[b..DigitRun(s, b)])
  {
    SkipSpacesPast(s, q, b);
    assert s[b] != '#' && DigitRun(s, b) > b;
  }

  lemma DigitsAfterHash(s: string, q: nat, h: nat, b: nat)
    requires q <= h < b < |s| && s[h] == '#' && IsDigit(s[b])
    requires SpacesBetween(s, q, h) && SpacesBetween(s, h + 1, b)
    ensures DigitsAfterKeyword(s, q) == Some(s[b..DigitRun(s, b)])
  {
    SkipSpacesPast(s, q, h);
    SkipSpacesPast(s, h + 1, b);
    assert DigitRun(s, b) > b;
  }

  /** No capture means no digit can follow any stretch of whitespace with one `#`. */
  lemma DigitsAfterKeywordNone(s: string, q: nat)
    requires q <= |s| && DigitsAfterKeyword(s, q).None?
    ensures forall b :: q <= b < |s| && SpacesAndHash(s, q, b) ==> !IsDigit(s[b])
  {
    forall b | q <= b < |s| && SpacesAndHash(s, q, b) ensures !IsDigit(s[b]) {
      if IsDigit(s[b]) {
        DigitsAfterKeywordFound(s, q, b);
      }
    }
  }

  /** The keyword `kw` matches at `p` and is followed by `\s*#?\s*(\d+)`. */
  predicate KeywordHit(s: string, p: nat, kw: string) {
    KeywordAt(s, p, kw) && DigitsAfterKeyword(s, p + |kw|).Some?
  }

  /** The first alternative at `p`: the keywords are tried in order. */
  function KeywordDigits(s: string, p: nat, kws: seq<string>): (r: Option<string>)
    requires forall i :: 0 <= i < |kws| ==> |kws[i]| > 0 && 'a' <= kws[i][0] <= 'z'
    ensures r.Some? ==> |r.value| > 0 && AllDigits(r.value)
    ensures r.Some? ==> p < |s| && 'a' <= LowerChar(s[p]) <= 'z'
  {
    if kws == [] then None
    else if KeywordHit(s, p, kws[0]) then
      assert LowerChar(s[p + 0]) == kws[0][0];
      DigitsAfterKeyword(s, p + |kws[0]|)
    else KeywordDigits(s, p, kws[1..])
  }

  /** A keyword that does not hit passes the search on to the next one. */
  lemma KeywordDigitsSkip(s: string, p: nat, kws: seq<string>)
    requires forall k :: 0 <= k < |kws| ==> |kws[k]| > 0 && 'a' <= kws[k][0] <= 'z'
    requires kws != [] && !KeywordHit(s, p, kws[0])
    ensures KeywordDigits(s, p, kws) == KeywordDigits(s, p, kws[1..])
  {
  }

  /** The alternation at `p` yields the capture of the first keyword, in the listed
      order, that matches there with digits after it. */
  lemma {:induction false} KeywordDigitsFirst(s: string, p: nat, kws: seq<string>, i: nat)
    requires forall k :: 0 <= k < |kws| ==> |kws[k]| > 0 && 'a' <= kws[k][0] <= 'z'
    requires i < |kws| && KeywordHit(s, p, kws[i])
    requires forall k :: 0 <= k < i ==> !KeywordHit(s, p, kws[k])
    ensures KeywordDigits(s, p, kws) == DigitsAfterKeyword(s, p + |kws[i]|)
  {
    if i > 0 {
      var rest := kws[1..];
      assert rest[i - 1] == kws[i];
      forall k | 0 <= k < i - 1 ensures !KeywordHit(s, p, rest[k]) {
        assert rest[k] == kws[k + 1];
      }
      KeywordDigitsFirst(s, p, rest, i - 1);
      KeywordDigitsSkip(s, p, kws);
    }
  }

  /** The alternation fails at `p` exactly when no keyword matches there with digits
      after it. */
  lemma KeywordDigitsNone(s: string, p: nat, kws: seq<string>)
    requires forall k :: 0 <= k < |kws| ==> |kws[k]| > 0 && 'a' <= kws[k][0] <= 'z'
    ensures KeywordDigits(s, p, kws).None? <==> forall k :: 0 <= k < |kws| ==> !KeywordHit(s, p, kws[k])
  {
    if KeywordDigits(s, p, kws).None? {
      KeywordDigitsMisses(s, p, kws);
    } else {
      KeywordDigitsHits(s, p, kws);
    }
  }

  lemma {:induction false} KeywordDigitsMisses(s: string, p: nat, kws: seq<string>)
    requires forall k :: 0 <= k < |kws| ==> |kws[k]| > 0 && 'a' <= kws[k][0] <= 'z'
    requires KeywordDigits(s, p, kws).None?
    ensures forall k :: 0 <= k < |kws| ==> !KeywordHit(s, p, kws[k])
  {
    if kws != [] {
      KeywordDigitsMisses(s, p, kws[1..]);
      assert forall k :: 1 <= k < |kws| ==> kws[k] == kws[1..][k - 1];
    }
  }

  lemma {:induction false} KeywordDigitsHits(s: string, p: nat, kws: seq<string>)
    requires forall k :: 0 <= k < |kws| ==> |kws[k]| > 0 && 'a' <= kws[k][0] <= 'z'
    requires KeywordDigits(s, p, kws).Some?
    ensures exists k :: 0 <= k < |kws| && KeywordHit(s, p, kws[k])
  {
    if !KeywordHit(s, p, kws[0]) {
      KeywordDigitsHits(s, p, kws[1..]);
      var k :| 0 <= k < |kws[1..]| && KeywordHit(s, p, kws[1..][k]);
      assert kws[1..][k] == kws[k + 1];
    }
  }

  /** The second alternative at `p`: `(\d+)\s*$`, digits followed only by whitespace. */
  function TrailingDigits(s: string, p: nat): (r: Option<string>)
    requires p <= |s|
    ensures r.Some? ==> |r.value| > 0 && AllDigits(r.value)
    ensures r.Some? ==> forall j :: p <= j < |s| ==> IsDigit(s[j]) || IsSpace(s[j])
    ensures r.Some? ==> p + |r.value| <= |s| && s[p..p + |r.value|] == r.value && AllSpace(s[p + |r.value|..])
    ensures (exists e :: p < e <= |s| && AllDigits(s[p..e]) && AllSpace(s[e..])) ==> r.Some?
  {
    var e := DigitRun(s, p);
    if e > p && AllSpace(s[e..]) then
      assert forall j :: p <= j < e ==> s[j] == s[p..e][j - p];
      assert forall j :: e <= j < |s| ==> s[j] == s[e..][j - e];
      Some(s[p..e])
    else None
  }

  lemma KeywordsStartWithLetters()
    ensures forall i :: 0 <= i < |Keywords| ==> |Keywords[i]| > 0 && 'a' <= Keywords[i][0] <= 'z'
  {
  }

  /** `re.search`: the leftmost position where either alternative matches, the first
      alternative winning at a position; the captured digits. */
  function IdMatchFrom(s: string, p: nat): (r: Option<string>)
    requires p <= |s|
    ensures r.Some? ==> |r.value| > 0 && AllDigits(r.value)
    decreases |s| - p
  {
    KeywordsStartWithLetters();
    match KeywordDigits(s, p, Keywords)
    case Some(d) => Some(d)
    case None =>
      match TrailingDigits(s, p)
      case Some(d) => Some(d)
      case None => if p == |s| then None else IdMatchFrom(s, p + 1)
  }

  /** The ID rescued from the user's text: `int(match.group(1) or match.group(2))`, or
      nothing when there is no match or `int` refuses the digit string. */
  function TextId(text: string): (r: Option<nat>)
    ensures r.Some? ==> IdMatchFrom(text, 0).Some? && |IdMatchFrom(text, 0).value| <= MaxIntDigits
    ensures r.Some? ==> r.value == DigitsValue(IdMatchFrom(text, 0).value)
    ensures IdMatchFrom(text, 0).Some? && |IdMatchFrom(text, 0).value| <= MaxIntDigits ==> r.Some?
  {
    match IdMatchFrom(text, 0)
    case None => None
    case Some(d) => if |d| > MaxIntDigits then None else Some(DigitsValue(d))
  }

  /** A keyword followed by digits anywhere in the text beats trailing digits: the match
      comes from the first alternative, at or before that keyword. */
  lemma {:induction false} KeywordPrecedence(s: string, from: nat, p: nat)
    requires from <= p <= |s|
    requires KeywordDigits(s, p, Keywords).Some?
    ensures IdMatchFrom(s, from).Some?
    ensures exists q :: from <= q <= p && KeywordDigits(s, q, Keywords).Some?
                        && IdMatchFrom(s, from) == KeywordDigits(s, q, Keywords)
    decreases p - from
  {
    KeywordsStartWithLetters();
    if KeywordDigits(s, from, Keywords).Some? {
      assert IdMatchFrom(s, from) == KeywordDigits(s, from, Keywords);
    } else {
      assert from < p;
      if TrailingDigits(s, from).Some? {
        assert false;
      }
      KeywordPrecedence(s, from + 1, p);
      assert IdMatchFrom(s, from) == IdMatchFrom(s, from + 1);
    }
  }

  /** With no keyword match anywhere, the ID is the digit run that ends the text
      (before trailing whitespace). */
  lemma {:induction false} TrailingIdOnly(s: string, from: nat, p: nat)
    requires from <= p <= |s|
    requires forall q :: from <= q <= p ==> KeywordDigits(s, q, Keywords).None?
    requires forall q :: from <= q < p ==> TrailingDigits(s, q).None?
    requires TrailingDigits(s, p).Some?
    ensures IdMatchFrom(s, from) == TrailingDigits(s, p)
    decreases p - from
  {
    if from < p {
      TrailingIdOnly(s, from + 1, p);
    }
  }

  // ---------------------------------------------------------------------------
  // ID rescue for the five lookup tools

  const ByIdTools: set<string> :=
    {"get_user_by_id", "get_dealer_by_id", "get_dvr_report_by_id", "get_tvr_report_by_id", "get_sales_order_by_id"}

  /** The argument name the rescue fills, chosen by substring tests in a fixed order. */
  function RescueKey(name: string): (r: Option<string>)
    ensures r.Some? <==> (Contains(name, "user_by_id") || Contains(name, "dealer_by_id")
                          || Contains(name, "dvr_report_by_id") || Contains(name, "tvr_report_by_id")
                          || Contains(name, "sales_order_by_id"))
    ensures Contains(name, "user_by_id") ==> r == Some("user_id")
    ensures r == Some("dealer_id") ==> Contains(name, "dealer_by_id") && !Contains(name, "user_by_id")
  {
    if Contains(name, "user_by_id") then Some("user_id")
    else if Contains(name, "dealer_by_id") then Some("dealer_id")
    else if Contains(name, "dvr_report_by_id") then Some("reportId")
    else if Contains(name, "tvr_report_by_id") then Some("reportId")
    else if Contains(name, "sales_order_by_id") then Some("orderId")
    else None
  }

  lemma RescueKeyOfUser(name: string)
    requires name == "get_" + "user_by_id"
    ensures RescueKey(name) == Some("user_id")
  {
    assert Contains(name, "user_by_id") by { ContainsEnd(name, "get_", "user_by_id"); }
  }

  lemma RescueKeyOfDealer(name: string)
    requires name == "get_" + "dealer_by_id"
    ensures RescueKey(name) == Some("dealer_id")
  {
    assert !Contains(name, "user_by_id") by { NotContainsChar(name, "user_by_id", 0); }
    assert Contains(name, "dealer_by_id") by { ContainsEnd(name, "get_", "dealer_by_id"); }
  }

  lemma RescueKeyOfDvr(name: string)
    requires name == "get_" + "dvr_report_by_id"
    ensures RescueKey(name) == Some("reportId")
  {
    assert !Contains(name, "user_by_id") by { NotContainsChar(name, "user_by_id", 0); }
    assert !Contains(name, "dealer_by_id") by { NotContainsChar(name, "dealer_by_id", 3); }
    assert Contains(name, "dvr_report_by_id") by { ContainsEnd(name, "get_", "dvr_report_by_id"); }
  }

  lemma RescueKeyOfTvr(name: string)
    requires name == "get_" + "tvr_report_by_id"
    ensures RescueKey(name) == Some("reportId")
  {
    assert !Contains(name, "user_by_id") by { NotContainsChar(name, "user_by_id", 0); }
    assert !Contains(name, "dealer_by_id") by { NotContainsChar(name, "dealer_by_id", 3); }
    assert !Contains(name, "dvr_report_by_id") by {
      NotContainsHead(name, "dvr_report_by_id");
    }
    assert Contains(name, "tvr_report_by_id") by { ContainsEnd(name, "get_", "tvr_report_by_id"); }
  }

  lemma SalesOrderMissesEarlierTests(name: string)
    requires name == "get_" + "sales_order_by_id"
    ensures !Contains(name, "user_by_id") && !Contains(name, "dealer_by_id")
  {
    NotContainsChar(name, "user_by_id", 0);
    NotContainsHead(name, "dealer_by_id");
  }

  lemma SalesOrderMissesReportTests(name: string)
    requires name == "get_" + "sales_order_by_id"
    ensures !Contains(name, "dvr_report_by_id") && !Contains(name, "tvr_report_by_id")
  {
    NotContainsChar(name, "dvr_report_by_id", 1);
    NotContainsChar(name, "tvr_report_by_id", 1);
  }

  lemma RescueKeyOfSalesOrder(name: string)
    requires name == "get_" + "sales_order_by_id"
    ensures RescueKey(name) == Some("orderId")
  {
    SalesOrderMissesEarlierTests(name);
    SalesOrderMissesReportTests(name);
    ContainsEnd(name, "get_", "sales_order_by_id");
  }

  /** Each by-ID lookup gets the argument its gateway expects: the first substring test
      that matches its name is the one for that lookup. */
  lemma RescueKeysOfLookups()
    ensures RescueKey("get_" + "user_by_id") == Some("user_id")
    ensures RescueKey("get_" + "dealer_by_id") == Some("dealer_id")
    ensures RescueKey("get_" + "dvr_report_by_id") == Some("reportId")
    ensures RescueKey("get_" + "tvr_report_by_id") == Some("reportId")
    ensures RescueKey("get_" + "sales_order_by_id") == Some("orderId")
  {
    RescueKeyOfUser("get_" + "user_by_id");
    RescueKeyOfDealer("get_" + "dealer_by_id");
    RescueKeyOfDvr("get_" + "dvr_report_by_id");
    RescueKeyOfTvr("get_" + "tvr_report_by_id");
    RescueKeyOfSalesOrder("get_" + "sales_order_by_id");
  }

  /** The first value that `isinstance(v, int)` accepts (a bool counts). */
  function FirstIntLike(vs: seq<Value>): (r: Option<Value>)
    ensures r.Some? ==> IsIntLike(r.value) && r.value in vs
    ensures r.Some? ==> exists i :: 0 <= i < |vs| && vs[i] == r.value && forall j :: 0 <= j < i ==> !IsIntLike(vs[j])
    ensures r.None? <==> forall i :: 0 <= i < |vs| ==> !IsIntLike(vs[i])
  {
    if vs == [] then None
    else if IsIntLike(vs[0]) then Some(vs[0])
    else
      var r := FirstIntLike(vs[1..]);
      FirstIntLikeTail(vs, r);
      r
  }

  lemma FirstIntLikeTail(vs: seq<Value>, r: Option<Value>)
    requires vs != [] && !IsIntLike(vs[0])
    requires r.Some? ==> exists i :: 0 <= i < |vs[1..]| && vs[1..][i] == r.value && forall j :: 0 <= j < i ==> !IsIntLike(vs[1..][j])
    requires r.None? <==> forall i :: 0 <= i < |vs[1..]| ==> !IsIntLike(vs[1..][i])
    ensures r.Some? ==> exists i :: 0 <= i < |vs| && vs[i] == r.value && forall j :: 0 <= j < i ==> !IsIntLike(vs[j])
    ensures r.None? <==> forall i :: 0 <= i < |vs| ==> !IsIntLike(vs[i])
  {
    if r.Some? {
      var i :| 0 <= i < |vs[1..]| && vs[1..][i] == r.value && forall j :: 0 <= j < i ==> !IsIntLike(vs[1..][j]);
      assert vs[i + 1] == r.value;
      assert forall j :: 0 < j < i + 1 ==> vs[j] == vs[1..][j - 1];
    }
    assert forall i :: 1 <= i < |vs| ==> vs[i] == vs[1..][i - 1];
  }

  /** The `for v in function_args.values(): if isinstance(v, int): ...; break` loop. */
  method FirstIntArgument(args: seq<Entry>) returns (r: Option<Value>)
    ensures r == FirstIntLike(Values(args))
  {
    var i := 0;
    while i < |args|
      invariant 0 <= i <= |args|
      invariant forall j :: 0 <= j < i ==> !IsIntLike(args[j].val)
    {
      if IsIntLike(args[i].val) {
        FirstIntAt(Values(args), i);
        return Some(args[i].val);
      }
      i := i + 1;
    }
    assert FirstIntLike(Values(args)).None?;
    return None;
  }

  lemma {:induction false} FirstIntAt(vs: seq<Value>, i: nat)
    requires i < |vs| && IsIntLike(vs[i]) && forall j :: 0 <= j < i ==> !IsIntLike(vs[j])
    ensures FirstIntLike(vs) == Some(vs[i])
  {
    if i > 0 {
      assert forall j :: 0 <= j < i - 1 ==> vs[1..][j] == vs[j + 1];
      FirstIntAt(vs[1..], i - 1);
    }
  }

  const MissingId: string :=
    "Required ID parameter missing. Please extract the ID from the user's message and provide it as an integer."

  /** The arguments sent for a call once the rescue has run: lookups with empty cleaned
      arguments get `{key: id}`, the id taken from the raw arguments when truthy and from
      the user's text otherwise; a lookup still without arguments fails. */
  function Rescued(name: string, raw: seq<Entry>, cleaned: seq<Entry>, textId: Option<nat>): (r: Result<seq<Entry>, string>)
    ensures name !in ByIdTools || cleaned != [] ==> r == Ok(cleaned)
    ensures r.Err? ==> r.error == MissingId && name in ByIdTools && cleaned == []
    ensures r.Ok? && name in ByIdTools && cleaned == [] ==>
              |r.value| == 1 && RescueKey(name).Some? && r.value[0].key == RescueKey(name).value
  {
    if name !in ByIdTools || cleaned != [] then Ok(cleaned)
    else
      var key := RescueKey(name);
      var fromArgs := if raw != [] then FirstIntLike(Values(raw)) else None;
      var chosen := if fromArgs.Some? && Truthy(fromArgs.value) then fromArgs
                    else if textId.Some? then Some(Int(textId.value)) else None;
      if chosen.Some? && key.Some? then Ok([Entry(key.value, chosen.value)])
      else Err(MissingId)
  }

  /** Where the injected ID comes from: the first integer (or bool) among the raw
      arguments when it is truthy, else the ID found in the text, else nothing. */
  lemma RescuedSource(name: string, raw: seq<Entry>, textId: Option<nat>)
    requires name in ByIdTools && RescueKey(name).Some?
    ensures var first := FirstIntLike(Values(raw));
            var key := RescueKey(name).value;
            (first.Some? && Truthy(first.value) ==> Rescued(name, raw, [], textId) == Ok([Entry(key, first.value)]))
            && (!(first.Some? && Truthy(first.value)) && textId.Some? ==>
                  Rescued(name, raw, [], textId) == Ok([Entry(key, Int(textId.value))]))
            && (!(first.Some? && Truthy(first.value)) && textId.None? ==> Rescued(name, raw, [], textId) == Err(MissingId))
  {
    if raw == [] {
      assert Values(raw) == [];
    }
  }

  /** A zero (or `False`) among the raw arguments does not count: the text's ID wins. */
  lemma FalsyArgumentFallsBack(name: string, raw: seq<Entry>, n: nat)
    requires name in ByIdTools && RescueKey(name).Some?
    requires FirstIntLike(Values(raw)).Some? && !Truthy(FirstIntLike(Values(raw)).value)
    ensures Rescued(name, raw, [], Some(n)) == Ok([Entry(RescueKey(name).value, Int(n))])
  {
  }

  /** What `json.loads` raises when `arguments` is JSON `null`. */
  const NoneArgumentsError: string := "the JSON object must be str, bytes or bytearray, not NoneType"

  /** The arguments of one call as the `try` block builds them, or the text of the
      exception that block raises. */
  function BotArguments(call: ToolCall, parse: Parser, textId: Option<nat>): (r: Result<seq<Entry>, string>)
    ensures call.arguments.None? ==> r == Err(NoneArgumentsError)
    ensures call.arguments.Some? && parse(call.arguments.value).Err? ==> r == Err(parse(call.arguments.value).error)
    ensures r.Ok? ==> call.arguments.Some? && parse(call.arguments.value).Ok? && parse(call.arguments.value).value.Object?
    ensures call.arguments.Some? && parse(call.arguments.value).Ok? ==>
              var v := parse(call.arguments.value).value;
              (!v.Object? ==> r == Err(NoItems(v)))
              && (v.Object? ==> r == Rescued(call.name, v.entries, Sanitize(v.entries), textId))
  {
    if call.arguments.None? then Err(NoneArgumentsError)
    else
      match parse(call.arguments.value)
      case Err(e) => Err(e)
      case Ok(v) =>
        if !v.Object? then Err(NoItems(v))
        else Rescued(call.name, v.entries, Sanitize(v.entries), textId)
  }

  /** The content of the `tool` message for one call. Every failure inside the `try`,
      including the missing-ID error, becomes `Error executing tool <fn>: <e>`. */
  function BotContent(env: Env, textId: Option<nat>, h: seq<Message>, call: ToolCall): (r: string)
    ensures var args := BotArguments(call, env.parse, textId);
            args.Err? ==> r == "Error executing tool " + call.name + ": " + args.error
    ensures var args := BotArguments(call, env.parse, textId);
            args.Ok? ==>
              var result := env.callTool(h, call.name, args.value);
              (result.Ok? ==> r == env.dumps(result.value))
              && (result.Err? ==> r == "Error executing tool " + call.name + ": " + result.error)
  {
    match BotArguments(call, env.parse, textId)
    case Err(e) => "Error executing tool " + call.name + ": " + e
    case Ok(args) =>
      match env.callTool(h, call.name, args)
      case Ok(result) => env.dumps(result)
      case Err(e) => "Error executing tool " + call.name + ": " + e
  }

  function BotStep(env: Env, textId: Option<nat>): Step {
    (h: seq<Message>, call: ToolCall) => Ok(BotContent(env, textId, h, call))
  }

  /** A lookup whose arguments are still empty never reaches the gateway: its `tool`
      message carries the missing-ID error. */
  lemma MissingIdReported(env: Env, textId: Option<nat>, h: seq<Message>, call: ToolCall)
    requires BotArguments(call, env.parse, textId) == Err(MissingId)
    ensures BotStep(env, textId)(h, call) == Ok("Error executing tool " + call.name + ": " + MissingId)
  {
  }

  /** No single call can end a Telegram turn: every round answers all of its calls. */
  lemma BotRoundCompletes(h: seq<Message>, calls: seq<ToolCall>, env: Env, textId: Option<nat>)
    ensures RunCalls(h, calls, BotStep(env, textId)).raised.None?
    ensures |RunCalls(h, calls, BotStep(env, textId)).history| == |h| + |calls|
  {
    RunCallsTotal(h, calls, BotStep(env, textId));
  }

  // ---------------------------------------------------------------------------
  // message_handler

  const Trouble: string := "Sorry, I'm having trouble connecting to my brain right now. Please try again later."
  const NoAnswer: string := "Sorry, I couldn't come up with a response."

  /** What the bot sends back: nothing for an empty message, one reply otherwise, or (a
      modelling artifact) no fuel left. */
  datatype BotReply = Silent | Reply(text: string) | Exhausted

  /** The reply for how the loop ended: the last message's content when truthy, a
      fallback when empty, and the apology for any exception, a falsy completion
      included. */
  function ReplyFor(end: LoopEnd): (r: BotReply)
    ensures r.Reply? <==> !end.OutOfFuel?
    ensures end.NoCompletion? || end.Raised? ==> r == Reply(Trouble)
    ensures end.Final? && end.reply.content.Some? && end.reply.content.value != "" ==> r == Reply(end.reply.content.value)
    ensures end.Final? && (end.reply.content.None? || end.reply.content.value == "") ==> r == Reply(NoAnswer)
  {
    match end
    case Final(_, c) => if c.content.Some? && c.content.value != "" then Reply(c.content.value) else Reply(NoAnswer)
    case NoCompletion(_) => Reply(Trouble)
    case Raised(_, _) => Reply(Trouble)
    case OutOfFuel(_) => Exhausted
  }

  /** The `for` loop over one round's calls on the local history. */
  method AnswerBotCalls(msgs: seq<Message>, calls: seq<ToolCall>, env: Env, textId: Option<nat>)
    returns (out: seq<Message>)
    ensures RunCalls(msgs, calls, BotStep(env, textId)) == CallsEnd(out, None)
  {
    out := msgs;
    var i := 0;
    while i < |calls|
      invariant 0 <= i <= |calls|
      invariant RunCalls(msgs, calls[..i], BotStep(env, textId)) == CallsEnd(out, None)
    {
      assert calls[..i + 1][..i] == calls[..i];
      out := out + [Tool(calls[i].id, BotContent(env, textId, out, calls[i]))];
      i := i + 1;
    }
    assert calls[..i] == calls;
  }

  /** `message_handler`: a fresh history of the system prompt and the text, the loop,
      then one reply. */
  method MessageHandler(text: string, tools: Option<seq<Value>>, env: Env, fuel: nat) returns (r: BotReply)
    ensures text == "" ==> r == Silent
    ensures text != "" ==>
              r == ReplyFor(RunRounds([System(SystemPrompt), User(text)], ToolsOf(tools), env.complete,
                                      BotStep(env, TextId(text)), fuel))
  {
    if text == "" {
      return Silent;
    }
    r := Converse([System(SystemPrompt), User(text)], ToolsOf(tools), env, TextId(text), fuel);
  }

  /** The `while True` loop of `message_handler` and the reply it ends with, for the ID
      already rescued from the user's text. */
  method Converse(msgs0: seq<Message>, available: seq<Value>, env: Env, textId: Option<nat>, fuel: nat)
    returns (r: BotReply)
    ensures r == ReplyFor(RunRounds(msgs0, available, env.complete, BotStep(env, textId), fuel))
  {
    var msgs := msgs0;
    ghost var end := RunRounds(msgs, available, env.complete, BotStep(env, textId), fuel);
    var left := fuel;
    while left > 0
      invariant RunRounds(msgs, available, env.complete, BotStep(env, textId), left) == end
      decreases left
    {
      var reply := env.complete(msgs, available);
      if reply.Err? || reply.value.None? {
        return Reply(Trouble);
      }
      var c := reply.value.value;
      msgs := msgs + [Assistant(c)];
      if c.toolCalls == [] {
        if c.content.Some? && c.content.value != "" {
          return Reply(c.content.value);
        }
        return Reply(NoAnswer);
      }
      msgs := AnswerBotCalls(msgs, c.toolCalls, env, textId);
      left := left - 1;
    }
    return Exhausted;
  }
}
