/** The semantic condenser: decides when a view is too long, keeps a head
    and a tail, forgets the lowest-scoring half of the middle and replaces
    it by a summary, obtained from the model or, when that call fails, by a
    bounded rule-based fallback. The model call is an input (`LlmReply`);
    `truncate_content` is the parameter `truncate`. */
module SemanticCondenser {
  import opened Results
  import opened Text
  import opened Events
  import ImportanceScorer

  // ---------------------------------------------------------------------
  // Configuration

  /** A condenser. Only values built by `New` satisfy `Valid`. */
  datatype Condenser = Condenser(
    maxSize: int,
    keepFirst: nat,
    ratio: real,
    maxEventLength: int,
    semantic: bool)

  predicate Valid(c: Condenser) {
    c.keepFirst < c.maxSize / 2 && 0.0 < c.ratio <= 1.0
  }

  /** The constructor: refuses `keep_first >= max_size // 2` (floor
      division, so stricter than half for an odd `max_size`), then a ratio
      outside (0, 1]. */
  function New(maxSize: int, keepFirst: nat, ratio: real, maxEventLength: int, semantic: bool)
    : (r: Result<Condenser>)
    ensures r.Ok? <==> keepFirst < maxSize / 2 && 0.0 < ratio <= 1.0
    ensures r.Ok? ==> (Valid(r.value)
      && r.value == Condenser(maxSize, keepFirst, ratio, maxEventLength, semantic))
    ensures keepFirst >= maxSize / 2 ==> r == Err(KeepFirstError(keepFirst, maxSize))
    ensures keepFirst < maxSize / 2 && !(0.0 < ratio <= 1.0) ==> r == Err(RATIO_ERROR)
  {
    if keepFirst >= maxSize / 2 then Err(KeepFirstError(keepFirst, maxSize))
    else if !(0.0 < ratio <= 1.0) then Err(RATIO_ERROR)
    else Ok(Condenser(maxSize, keepFirst, ratio, maxEventLength, semantic))
  }

  /** The message names both offending values in decimal. */
  function KeepFirstError(keepFirst: nat, maxSize: int): string {
    "ValueError: keep_first (" + NatToString(keepFirst) + ") must be less than half of max_size ("
    + IntToString(maxSize) + ")"
  }

  /** The ratio's own decimal rendering is left out of the message. */
  const RATIO_ERROR := "ValueError: max_compression_ratio must be between 0 and 1"

  /** A valid configuration keeps at least two head-and-summary slots below `max_size`. */
  lemma ValidBounds(c: Condenser)
    requires Valid(c)
    ensures c.maxSize >= 2 && 2 * c.keepFirst + 2 <= c.maxSize
  {
  }

  // ---------------------------------------------------------------------
  // When and how much

  /** `should_condense`. */
  predicate ShouldCondense(c: Condenser, view: View) {
    |view| > c.maxSize
  }

  /** `max(int(max_size * ratio), keep_first + 2)`: room for the head, the
      summary and at least one tail event, never above `max_size`. */
  function TargetSize(c: Condenser): (t: int)
    requires Valid(c)
    ensures c.keepFirst + 2 <= t <= c.maxSize
    ensures t == MaxInt((c.maxSize as real * c.ratio).Floor, c.keepFirst + 2)
  {
    ValidBounds(c);
    assert c.maxSize as real * c.ratio <= c.maxSize as real * 1.0;
    MaxInt((c.maxSize as real * c.ratio).Floor, c.keepFirst + 2)
  }

  /** `events_from_tail`: how many events at the end are kept. Always at
      least one, so the `view[keep_first:]` fallback is never used. */
  function EventsFromTail(c: Condenser): (n: int)
    requires Valid(c)
    ensures 1 <= n <= c.maxSize - c.keepFirst - 1
  {
    TargetSize(c) - c.keepFirst - 1
  }

  /** Some event lies between the head and the kept tail. */
  predicate HasMiddle(c: Condenser, view: View)
    requires Valid(c)
  {
    EventsFromTail(c) < |view| - c.keepFirst
  }

  /** One past the last middle index: `-events_from_tail` as a slice end. */
  function MiddleEnd(c: Condenser, view: View): (hi: int)
    requires Valid(c) && HasMiddle(c, view)
    ensures c.keepFirst < hi < |view|
  {
    |view| - EventsFromTail(c)
  }

  /** A view over budget always has at least two events between the head
      and the kept tail. */
  lemma OverBudgetHasMiddle(c: Condenser, view: View)
    requires Valid(c) && ShouldCondense(c, view)
    ensures HasMiddle(c, view) && MiddleEnd(c, view) - c.keepFirst >= 2
  {
  }

  // ---------------------------------------------------------------------
  // The existing summary

  const INITIAL_SUMMARY := "初始状态：对话开始"

  /** `_get_or_create_summary_event`: the summary at offset `keep_first` if
      the view has one there, else a fresh non-empty initial summary. */
  function GetOrCreateSummary(c: Condenser, view: View): (s: Event)
    ensures IsSummary(s)
    ensures c.keepFirst < |view| && IsSummary(view[c.keepFirst]) ==> s == view[c.keepFirst]
    ensures !(c.keepFirst < |view| && IsSummary(view[c.keepFirst])) ==>
      s == NewSummary(INITIAL_SUMMARY) && SummaryText(s) != ""
  {
    if c.keepFirst < |view| && IsSummary(view[c.keepFirst]) then view[c.keepFirst]
    else NewSummary(INITIAL_SUMMARY)
  }

  // ---------------------------------------------------------------------
  // Candidates

  /** The events of `s` that are not summaries, in order. */
  function NonSummaries(s: seq<Event>): (r: seq<Event>)
    ensures |r| <= |s|
  {
    if |s| == 0 then []
    else NonSummaries(s[..|s| - 1]) + (if IsSummary(s[|s| - 1]) then [] else [s[|s| - 1]])
  }

  lemma {:induction false} NonSummariesFrom(s: seq<Event>)
    ensures forall e :: e in NonSummaries(s) ==> e in s && !IsSummary(e)
    ensures (forall k :: 0 <= k < |s| ==> !IsSummary(s[k])) ==> NonSummaries(s) == s
  {
    if |s| > 0 {
      var init, last := s[..|s| - 1], s[|s| - 1];
      NonSummariesFrom(init);
      assert s == init + [last];
      assert NonSummaries(s) == NonSummaries(init) + (if IsSummary(last) then [] else [last]);
      forall e | e in NonSummaries(s)
        ensures e in s && !IsSummary(e)
      {
        if e in NonSummaries(init) {
          assert e in init;
        }
      }
    }
  }

  /** One more event: kept at the end unless it is a summary. */
  lemma NonSummariesSnoc(s: seq<Event>, e: Event)
    ensures NonSummaries(s + [e]) == NonSummaries(s) + (if IsSummary(e) then [] else [e])
  {
    assert (s + [e])[..|s|] == s;
  }

  /** No non-summary event is dropped. */
  lemma {:induction false} NonSummariesComplete(s: seq<Event>)
    ensures forall k :: 0 <= k < |s| && !IsSummary(s[k]) ==> s[k] in NonSummaries(s)
  {
    if |s| > 0 {
      var init := s[..|s| - 1];
      NonSummariesComplete(init);
      forall k | 0 <= k < |s| && !IsSummary(s[k])
        ensures s[k] in NonSummaries(s)
      {
        if k < |init| {
          assert s[k] == init[k];
        }
      }
    }
  }

  /** The forgetting candidates: the non-summary events strictly between
      the head and the kept tail. */
  function Candidates(c: Condenser, view: View): seq<Event>
    requires Valid(c)
  {
    if HasMiddle(c, view) then NonSummaries(view[c.keepFirst..MiddleEnd(c, view)]) else []
  }

  /** Every candidate is a non-summary event of the middle of the view. */
  lemma CandidatesInMiddle(c: Condenser, view: View)
    requires Valid(c)
    ensures Candidates(c, view) != [] ==> HasMiddle(c, view)
    ensures forall e :: e in Candidates(c, view) ==>
      !IsSummary(e) && e in view[c.keepFirst..MiddleEnd(c, view)]
  {
    if HasMiddle(c, view) {
      NonSummariesFrom(view[c.keepFirst..MiddleEnd(c, view)]);
    }
  }

  /** Every non-summary event of the middle of the view is a candidate. */
  lemma MiddleInCandidates(c: Condenser, view: View)
    requires Valid(c)
    ensures HasMiddle(c, view) ==>
      forall k :: c.keepFirst <= k < MiddleEnd(c, view) && !IsSummary(view[k]) ==>
        view[k] in Candidates(c, view)
  {
    if HasMiddle(c, view) {
      var middle := view[c.keepFirst..MiddleEnd(c, view)];
      assert Candidates(c, view) == NonSummaries(middle);
      NonSummariesComplete(middle);
      forall k | c.keepFirst <= k < MiddleEnd(c, view) && !IsSummary(view[k])
        ensures view[k] in NonSummaries(middle)
      {
        assert view[k] == middle[k - c.keepFirst];
      }
    }
  }

  // ---------------------------------------------------------------------
  // Selection by score

  /** An event paired with its importance score, as in `scored_events`. */
  type Scored = (Event, real)

  predicate SortedByScore(s: seq<Scored>) {
    forall i, j :: 0 <= i < j < |s| ==> s[i].1 <= s[j].1
  }

  /** Each pair carries its event's score. */
  predicate WellScored(s: seq<Scored>) {
    forall k :: 0 <= k < |s| ==> s[k].1 == ImportanceScorer.ScoreEvent(s[k].0)
  }

  /** `[event for event, score in s]`. */
  function Firsts(s: seq<Scored>): (r: seq<Event>)
    ensures |r| == |s| && forall k :: 0 <= k < |s| ==> r[k] == s[k].0
  {
    if |s| == 0 then [] else [s[0].0] + Firsts(s[1..])
  }

  /** Inserts `p` after every pair that scores no higher, so that pairs
      with equal scores keep their order, as Python's stable sort does. */
  function InsertByScore(p: Scored, s: seq<Scored>): (r: seq<Scored>)
    ensures |r| == |s| + 1
    ensures forall k :: 0 <= k < |r| ==> r[k] == p || r[k] in s
  {
    if |s| == 0 then [p]
    else if p.1 < s[0].1 then [p] + s
    else [s[0]] + InsertByScore(p, s[1..])
  }

  lemma {:induction false} InsertByScoreSorted(p: Scored, s: seq<Scored>)
    requires SortedByScore(s)
    ensures SortedByScore(InsertByScore(p, s))
  {
    if |s| > 0 && p.1 >= s[0].1 {
      InsertByScoreSorted(p, s[1..]);
      var r := InsertByScore(p, s);
      forall k | 1 <= k < |r| ensures s[0].1 <= r[k].1 {
        assert r[k] == p || r[k] in s[1..];
      }
    }
  }

  lemma {:induction false} InsertByScoreCounts(p: Scored, s: seq<Scored>)
    ensures multiset(Firsts(InsertByScore(p, s))) == multiset(Firsts(s)) + multiset{p.0}
  {
    if |s| > 0 {
      var r := InsertByScore(p, s);
      if p.1 < s[0].1 {
        assert Firsts(r) == [p.0] + Firsts(s);
      } else {
        InsertByScoreCounts(p, s[1..]);
        assert Firsts(r) == [s[0].0] + Firsts(InsertByScore(p, s[1..]));
        assert Firsts(s) == [s[0].0] + Firsts(s[1..]);
      }
    }
  }

  lemma InsertByScoreWellScored(p: Scored, s: seq<Scored>)
    requires WellScored(s) && p.1 == ImportanceScorer.ScoreEvent(p.0)
    ensures WellScored(InsertByScore(p, s))
  {
    var r := InsertByScore(p, s);
    forall k | 0 <= k < |r| ensures r[k].1 == ImportanceScorer.ScoreEvent(r[k].0) {
      if r[k] != p {
        var j :| 0 <= j < |s| && s[j] == r[k];
      }
    }
  }

  lemma {:induction false} FirstsConcat(a: seq<Scored>, b: seq<Scored>)
    ensures Firsts(a + b) == Firsts(a) + Firsts(b)
  {
    var joined := Firsts(a + b);
    forall k | 0 <= k < |joined|
      ensures joined[k] == (Firsts(a) + Firsts(b))[k]
    {
      if k < |a| {
        assert (a + b)[k] == a[k];
      } else {
        assert (a + b)[k] == b[k - |a|];
      }
    }
  }

  lemma FirstsSplit(s: seq<Scored>, n: nat)
    requires n <= |s|
    ensures Firsts(s) == Firsts(s[..n]) + Firsts(s[n..])
  {
    assert s == s[..n] + s[n..];
    FirstsConcat(s[..n], s[n..]);
  }

  lemma FirstsAppend(s: seq<Scored>, p: Scored)
    ensures Firsts(s + [p]) == Firsts(s) + [p.0]
  {
    assert forall k :: 0 <= k < |s| ==> (s + [p])[k] == s[k];
  }

  /** The `scored_events.sort(key=lambda x: x[1])` step, as an insertion sort. */
  method SortByScore(scored: seq<Scored>) returns (sorted: seq<Scored>)
    requires WellScored(scored)
    ensures |sorted| == |scored|
    ensures SortedByScore(sorted) && WellScored(sorted)
    ensures multiset(Firsts(sorted)) == multiset(Firsts(scored))
  {
    sorted := [];
    for i := 0 to |scored|
      invariant SortedPrefix(scored, i, sorted)
    {
      SortedPrefixStep(scored, i, sorted);
      sorted := InsertByScore(scored[i], sorted);
    }
    assert scored[..|scored|] == scored;
  }

  /** The insertion sort's loop invariant: `sorted` is the first `i`
      pairs of `scored`, reordered by score. */
  predicate SortedPrefix(scored: seq<Scored>, i: int, sorted: seq<Scored>)
    requires 0 <= i <= |scored|
  {
    && |sorted| == i
    && SortedByScore(sorted) && WellScored(sorted)
    && multiset(Firsts(sorted)) == multiset(Firsts(scored[..i]))
  }

  lemma SortedPrefixStep(scored: seq<Scored>, i: int, sorted: seq<Scored>)
    requires WellScored(scored) && 0 <= i < |scored| && SortedPrefix(scored, i, sorted)
    ensures SortedPrefix(scored, i + 1, InsertByScore(scored[i], sorted))
  {
    InsertByScoreSorted(scored[i], sorted);
    InsertByScoreCounts(scored[i], sorted);
    InsertByScoreWellScored(scored[i], sorted);
    FirstsAppend(scored[..i], scored[i]);
    assert scored[..i + 1] == scored[..i] + [scored[i]];
  }

  /** `forgotten` holds `max(1, n // 2)` of the `n` candidates in
      ascending order of score, and none of them scores higher than a
      candidate left out. */
  ghost predicate LowestHalf(candidates: seq<Event>, forgotten: seq<Event>) {
    && |forgotten| == MaxInt(1, |candidates| / 2)
    && multiset(forgotten) <= multiset(candidates)
    && ScoresAscending(forgotten)
    && forall x, y :: x in multiset(forgotten) && y in multiset(candidates) - multiset(forgotten)
         ==> ImportanceScorer.ScoreEvent(x) <= ImportanceScorer.ScoreEvent(y)
  }

  /** No event scores higher than one after it. */
  predicate ScoresAscending(events: seq<Event>) {
    forall i, j :: 0 <= i < j < |events| ==>
      ImportanceScorer.ScoreEvent(events[i]) <= ImportanceScorer.ScoreEvent(events[j])
  }

  /** The events of a prefix of a list sorted by score come in ascending
      order of score. */
  lemma FirstsAscending(sorted: seq<Scored>, n: nat)
    requires SortedByScore(sorted) && WellScored(sorted) && n <= |sorted|
    ensures ScoresAscending(Firsts(sorted[..n]))
  {
    var front := Firsts(sorted[..n]);
    forall i, j | 0 <= i < j < n
      ensures ImportanceScorer.ScoreEvent(front[i]) <= ImportanceScorer.ScoreEvent(front[j])
    {
      assert front[i] == sorted[i].0 && front[j] == sorted[j].0;
    }
  }

  /** Splitting a list sorted by score: nothing in the front scores higher
      than anything in the back. */
  lemma SortedSplit(sorted: seq<Scored>, n: nat)
    requires SortedByScore(sorted) && WellScored(sorted) && n <= |sorted|
    ensures forall x, y ::
              x in multiset(Firsts(sorted[..n])) && y in multiset(Firsts(sorted[n..])) ==>
                ImportanceScorer.ScoreEvent(x) <= ImportanceScorer.ScoreEvent(y)
  {
    forall x, y | x in multiset(Firsts(sorted[..n])) && y in multiset(Firsts(sorted[n..]))
      ensures ImportanceScorer.ScoreEvent(x) <= ImportanceScorer.ScoreEvent(y)
    {
      assert x in Firsts(sorted[..n]);
      var i :| 0 <= i < n && Firsts(sorted[..n])[i] == x;
      assert sorted[i].0 == x;
    }
  }

  /** Splitting the candidates into a front of the right size whose
      scores are all no higher than the back's gives a lowest half. */
  lemma LowestHalfFromSplit(events: seq<Event>, front: seq<Event>, back: seq<Event>)
    requires multiset(events) == multiset(front) + multiset(back)
    requires |front| == MaxInt(1, |events| / 2)
    requires ScoresAscending(front)
    requires forall x, y :: x in multiset(front) && y in multiset(back) ==>
      ImportanceScorer.ScoreEvent(x) <= ImportanceScorer.ScoreEvent(y)
    ensures LowestHalf(events, front)
  {
    assert multiset(events) - multiset(front) == multiset(back);
  }

  /** `_filter_by_importance`: score every candidate, sort ascending by
      score and keep the first `max(1, n // 2)`. */
  method FilterByImportance(events: seq<Event>) returns (forgotten: seq<Event>)
    requires |events| > 0
    ensures LowestHalf(events, forgotten)
  {
    var scored: seq<Scored> := [];
    for i := 0 to |events|
      invariant |scored| == i && WellScored(scored)
      invariant forall k :: 0 <= k < i ==> scored[k].0 == events[k]
    {
      scored := scored + [(events[i], ImportanceScorer.ScoreEvent(events[i]))];
    }
    assert Firsts(scored) == events;
    var sorted := SortByScore(scored);
    var numToForget := MaxInt(1, |events| / 2);
    forgotten := Firsts(sorted[..numToForget]);
    SortedSplit(sorted, numToForget);
    FirstsAscending(sorted, numToForget);
    FirstsSplit(sorted, numToForget);
    LowestHalfFromSplit(events, forgotten, Firsts(sorted[numToForget..]));
  }

  // ---------------------------------------------------------------------
  // Which events to forget

  /** What `_identify_events_to_forget` returns: every candidate without
      semantic analysis, the lowest-scoring half with it. */
  ghost predicate Selected(c: Condenser, view: View, forgotten: seq<Event>)
    requires Valid(c)
  {
    var candidates := Candidates(c, view);
    if c.semantic && candidates != [] then LowestHalf(candidates, forgotten)
    else forgotten == candidates
  }

  /** `_identify_events_to_forget`: collect the non-summary events of the
      middle, then filter them by importance when semantic analysis is on. */
  method IdentifyEventsToForget(c: Condenser, view: View) returns (forgotten: seq<Event>)
    requires Valid(c)
    ensures Selected(c, view, forgotten)
  {
    var eventsFromTail := EventsFromTail(c);
    if eventsFromTail >= |view| - c.keepFirst {
      return [];
    }
    var hi := if eventsFromTail > 0 then |view| - eventsFromTail else |view|;
    forgotten := [];
    for i := c.keepFirst to hi
      invariant forgotten == NonSummaries(view[c.keepFirst..i])
    {
      assert view[c.keepFirst..i + 1] == view[c.keepFirst..i] + [view[i]];
      NonSummariesSnoc(view[c.keepFirst..i], view[i]);
      if !IsSummary(view[i]) {
        forgotten := forgotten + [view[i]];
      }
    }
    assert HasMiddle(c, view) && hi == MiddleEnd(c, view);
    assert forgotten == Candidates(c, view);
    if c.semantic && forgotten != [] {
      forgotten := FilterByImportance(forgotten);
    }
  }

  /** The forgotten events are middle events: never one of the first
      `keep_first`, never one of the kept tail, never a summary. */
  lemma SelectedInMiddle(c: Condenser, view: View, forgotten: seq<Event>)
    requires Valid(c) && Selected(c, view, forgotten)
    ensures forgotten != [] ==> HasMiddle(c, view)
    ensures forall e :: e in forgotten ==>
      !IsSummary(e) && e in view[c.keepFirst..MiddleEnd(c, view)]
  {
    CandidatesInMiddle(c, view);
    var candidates := Candidates(c, view);
    forall e | e in forgotten
      ensures e in candidates
    {
      if c.semantic && candidates != [] {
        assert e in multiset(forgotten);
      }
    }
  }

  // ---------------------------------------------------------------------
  // Id range

  function MinId(s: seq<Event>): (m: int)
    requires |s| > 0
    ensures exists k :: 0 <= k < |s| && s[k].id == m
    ensures forall k :: 0 <= k < |s| ==> m <= s[k].id
  {
    if |s| == 1 then s[0].id
    else
      var m := MinId(s[1..]);
      assert forall k :: 1 <= k < |s| ==> s[k] == s[1..][k - 1];
      if s[0].id <= m then s[0].id else m
  }

  function MaxId(s: seq<Event>): (m: int)
    requires |s| > 0
    ensures exists k :: 0 <= k < |s| && s[k].id == m
    ensures forall k :: 0 <= k < |s| ==> s[k].id <= m
  {
    if |s| == 1 then s[0].id
    else
      var m := MaxId(s[1..]);
      assert forall k :: 1 <= k < |s| ==> s[k] == s[1..][k - 1];
      if s[0].id >= m then s[0].id else m
  }

  /** Events drawn from `view[lo..hi]` of a view with increasing ids have
      ids strictly between those outside that slice. */
  lemma IdsWithinSlice(view: View, lo: int, hi: int, s: seq<Event>)
    requires IdsIncreasing(view) && 0 <= lo <= hi <= |view| && |s| > 0
    requires forall e :: e in s ==> e in view[lo..hi]
    ensures forall j :: 0 <= j < lo ==> view[j].id < MinId(s)
    ensures forall j :: hi <= j < |view| ==> MaxId(s) < view[j].id
  {
    var a :| 0 <= a < |s| && s[a].id == MinId(s);
    var b :| 0 <= b < |s| && s[b].id == MaxId(s);
    assert s[a] in view[lo..hi] && s[b] in view[lo..hi];
    var ia :| lo <= ia < hi && view[ia] == s[a];
    var ib :| lo <= ib < hi && view[ib] == s[b];
  }

  /** With ids increasing along the view, the forgotten id range lies
      strictly after every head event and strictly before every kept tail
      event. */
  lemma ForgottenRangeSparesHeadAndTail(c: Condenser, view: View, forgotten: seq<Event>)
    requires Valid(c) && Selected(c, view, forgotten) && forgotten != []
    requires IdsIncreasing(view)
    ensures HasMiddle(c, view)
    ensures forall j :: 0 <= j < c.keepFirst ==> view[j].id < MinId(forgotten)
    ensures forall j :: MiddleEnd(c, view) <= j < |view| ==> MaxId(forgotten) < view[j].id
  {
    SelectedInMiddle(c, view, forgotten);
    IdsWithinSlice(view, c.keepFirst, MiddleEnd(c, view), forgotten);
  }

  // ---------------------------------------------------------------------
  // The compression prompt

  const PROMPT_HEADER := @"你是一个智能对话压缩专家。请对以下对话片段进行语义压缩，遵循以下原则：

语义压缩策略：
1. 保留关键信息：错误状态、成功结果、用户指令、重要决策
2. 压缩冗余内容：重复操作、相似输出、详细日志
3. 合并相似操作：同类型的文件操作、相似的查询结果
4. 保留最终状态：任务完成情况、当前变量值、重要中间步骤

分层压缩格式：
任务上下文: (用户需求和目标的简洁描述)
关键进展: (重要的操作和成果)
技术状态: (代码状态、配置变化、系统状态)
待处理项: (未完成的任务和问题)
重要发现: (错误信息、调试结果、关键观察)

示例：
任务上下文: 修复FITS文件浮点数表示问题
关键进展: 已修改card.py中的mod_float()函数，测试通过
技术状态: str(val)替换f""{val:.16G}""，所有单元测试通过
待处理项: 创建PR，更新文档
重要发现: 原始格式导致精度丢失，新方法保持完整精度

请基于以下内容进行压缩：
"

  const PROMPT_FOOTER := "请生成简洁而完整的语义压缩总结，重点关注任务进展和技术状态："

  /** The `[事件 id] content` entry of one forgotten event. */
  function EventEntry(e: Event, truncate: (string, int) -> string, maxLength: int): string {
    "[事件 " + IntToString(e.id) + "] " + truncate(e.rendering, maxLength) + "\n\n"
  }

  /** The entries of all forgotten events, in order. */
  function EventEntries(events: seq<Event>, truncate: (string, int) -> string, maxLength: int): string {
    if |events| == 0 then ""
    else (EventEntries(events[..|events| - 1], truncate, maxLength)
          + EventEntry(events[|events| - 1], truncate, maxLength))
  }

  /** The previous-summary block, present only when the summary has text. */
  function PreviousSummaryBlock(summary: Event, truncate: (string, int) -> string, maxLength: int)
    : string
  {
    if SummaryText(summary) == "" then ""
    else "\n<前期总结>\n" + truncate(SummaryText(summary), maxLength) + "\n</前期总结>\n\n"
  }

  /** The prompt built after the instructions `header`. */
  function PromptAfter(header: string, c: Condenser, summary: Event, forgotten: seq<Event>,
                       truncate: (string, int) -> string): string
  {
    header + PreviousSummaryBlock(summary, truncate, c.maxEventLength)
    + "<待压缩事件>\n" + EventEntries(forgotten, truncate, c.maxEventLength)
    + "</待压缩事件>\n\n" + PROMPT_FOOTER
  }

  /** The prompt `_build_semantic_compression_prompt` produces. */
  function Prompt(c: Condenser, summary: Event, forgotten: seq<Event>,
                  truncate: (string, int) -> string): string
  {
    PromptAfter(PROMPT_HEADER, c, summary, forgotten, truncate)
  }

  /** The accumulation of `_build_semantic_compression_prompt` after the
      instructions: the previous summary, then one entry per event. */
  method AppendPromptBody(header: string, c: Condenser, summary: Event, forgotten: seq<Event>,
                          truncate: (string, int) -> string)
    returns (prompt: string)
    ensures prompt == PromptAfter(header, c, summary, forgotten, truncate)
  {
    prompt := header;
    if SummaryText(summary) != "" {
      var previous := truncate(SummaryText(summary), c.maxEventLength);
      prompt := prompt + ("\n<前期总结>\n" + previous + "\n</前期总结>\n\n");
    }
    prompt := prompt + "<待压缩事件>\n";
    ghost var start := prompt;
    assert start == header + PreviousSummaryBlock(summary, truncate, c.maxEventLength) + "<待压缩事件>\n";
    for i := 0 to |forgotten|
      invariant prompt == start + EventEntries(forgotten[..i], truncate, c.maxEventLength)
    {
      assert forgotten[..i + 1][..i] == forgotten[..i];
      var entry := EventEntry(forgotten[i], truncate, c.maxEventLength);
      ghost var done := EventEntries(forgotten[..i], truncate, c.maxEventLength);
      assert EventEntries(forgotten[..i + 1], truncate, c.maxEventLength) == done + entry;
      AppendAssoc(start, done, entry);
      prompt := prompt + entry;
    }
    assert forgotten[..|forgotten|] == forgotten;
    prompt := prompt + "</待压缩事件>\n\n";
    prompt := prompt + PROMPT_FOOTER;
  }

  lemma AppendAssoc(a: string, b: string, c: string)
    ensures (a + b) + c == a + (b + c)
  {
  }

  /** `_build_semantic_compression_prompt`. */
  method BuildPrompt(c: Condenser, summary: Event, forgotten: seq<Event>,
                     truncate: (string, int) -> string)
    returns (prompt: string)
    ensures prompt == Prompt(c, summary, forgotten, truncate)
  {
    prompt := AppendPromptBody(PROMPT_HEADER, c, summary, forgotten, truncate);
  }

  /** `a` stays a prefix of anything appended to it. */
  lemma PrefixOfAppend(a: string, b: string, n: nat)
    requires n <= |a|
    ensures n <= |a + b| && (a + b)[..n] == a[..n]
  {
  }

  /** Each entry quotes the truncated event and the entries keep the
      events' order: the entry of event `k` lies inside the entries. */
  lemma {:induction false} EntriesQuoteEvents(events: seq<Event>, truncate: (string, int) -> string,
                                              maxLength: int, k: int)
    requires 0 <= k < |events|
    ensures Contains(EventEntries(events, truncate, maxLength), EventEntry(events[k], truncate, maxLength))
  {
    var init := events[..|events| - 1];
    var done := EventEntries(init, truncate, maxLength);
    var entry := EventEntry(events[|events| - 1], truncate, maxLength);
    var all := done + entry;
    assert EventEntries(events, truncate, maxLength) == all;
    if k == |events| - 1 {
      assert OccursAt(all, entry, |done|);
      ContainsAt(all, entry, |done|);
    } else {
      assert init[k] == events[k];
      EntriesQuoteEvents(init, truncate, maxLength, k);
      assert OccursAt(all, done, 0);
      ContainsAt(all, done, 0);
      ContainsTransitive(all, done, EventEntry(events[k], truncate, maxLength));
    }
  }

  /** The prompt opens with the instructions and ends with the request
      for a summary. */
  lemma PromptFrame(header: string, c: Condenser, summary: Event, forgotten: seq<Event>,
                    truncate: (string, int) -> string)
    ensures var p := PromptAfter(header, c, summary, forgotten, truncate);
      |p| >= |header| + |PROMPT_FOOTER|
      && p[..|header|] == header
      && p[|p| - |PROMPT_FOOTER|..] == PROMPT_FOOTER
  {
    var block := PreviousSummaryBlock(summary, truncate, c.maxEventLength);
    var entries := EventEntries(forgotten, truncate, c.maxEventLength);
    var a := header + block + "<待压缩事件>\n";
    var b := a + entries;
    var d := b + "</待压缩事件>\n\n";
    PrefixOfAppend(header, block, |header|);
    PrefixOfAppend(header + block, "<待压缩事件>\n", |header|);
    PrefixOfAppend(a, entries, |header|);
    PrefixOfAppend(b, "</待压缩事件>\n\n", |header|);
    PrefixOfAppend(d, PROMPT_FOOTER, |header|);
  }

  /** The prompt quotes the entry of every forgotten event. */
  lemma PromptQuotesEvents(header: string, c: Condenser, summary: Event, forgotten: seq<Event>,
                           truncate: (string, int) -> string, k: int)
    requires 0 <= k < |forgotten|
    ensures Contains(PromptAfter(header, c, summary, forgotten, truncate),
                     EventEntry(forgotten[k], truncate, c.maxEventLength))
  {
    var entries := EventEntries(forgotten, truncate, c.maxEventLength);
    var a := header + PreviousSummaryBlock(summary, truncate, c.maxEventLength) + "<待压缩事件>\n";
    var p := a + entries + "</待压缩事件>\n\n" + PROMPT_FOOTER;
    var entry := EventEntry(forgotten[k], truncate, c.maxEventLength);
    EntriesQuoteEvents(forgotten, truncate, c.maxEventLength, k);
    MiddleOccurs(a, entries, "</待压缩事件>\n\n", PROMPT_FOOTER);
    ContainsAt(p, entries, |a|);
    ContainsTransitive(p, entries, entry);
  }

  lemma MiddleOccurs(a: string, m: string, z1: string, z2: string)
    ensures OccursAt(a + m + z1 + z2, m, |a|)
  {
    assert (a + m + z1 + z2)[|a|..|a| + |m|] == m;
  }

  // ---------------------------------------------------------------------
  // The rule-based fallback summary

  /** Per-type tallies in first-seen order, as the `event_types` dict. */
  type Tally = seq<(string, nat)>

  /** `event_types[name] = event_types.get(name, 0) + 1`. */
  function Bump(tally: Tally, name: string): (r: Tally)
    ensures |r| == |tally| || |r| == |tally| + 1
  {
    if |tally| == 0 then [(name, 1)]
    else if tally[0].0 == name then [(name, tally[0].1 + 1)] + tally[1..]
    else [tally[0]] + Bump(tally[1..], name)
  }

  function TallyOf(events: seq<Event>): Tally {
    if |events| == 0 then []
    else Bump(TallyOf(events[..|events| - 1]), events[|events| - 1].typeName)
  }

  function TallyTotal(tally: Tally): nat {
    if |tally| == 0 then 0 else tally[0].1 + TallyTotal(tally[1..])
  }

  /** The keys of a tally. */
  function Names(tally: Tally): set<string> {
    if |tally| == 0 then {} else {tally[0].0} + Names(tally[1..])
  }

  /** No key occurs twice, as in a dict. */
  predicate DistinctNames(tally: Tally) {
    |tally| == 0 || (tally[0].0 !in Names(tally[1..]) && DistinctNames(tally[1..]))
  }

  /** The type names of some events. */
  function TypeNames(events: seq<Event>): set<string> {
    if |events| == 0 then {} else TypeNames(events[..|events| - 1]) + {events[|events| - 1].typeName}
  }

  lemma {:induction false} BumpCounts(tally: Tally, name: string)
    ensures Names(Bump(tally, name)) == Names(tally) + {name}
    ensures TallyTotal(Bump(tally, name)) == TallyTotal(tally) + 1
    ensures DistinctNames(tally) ==> DistinctNames(Bump(tally, name))
  {
    if |tally| > 0 {
      var r := Bump(tally, name);
      if tally[0].0 == name {
        assert r[1..] == tally[1..];
      } else {
        BumpCounts(tally[1..], name);
        assert r[1..] == Bump(tally[1..], name);
      }
    }
  }

  /** The type tally counts every forgotten event exactly once, under a
      key that occurs once, and its keys are exactly the types that occur. */
  lemma {:induction false} TallyCountsEveryEvent(events: seq<Event>)
    ensures DistinctNames(TallyOf(events))
    ensures TallyTotal(TallyOf(events)) == |events|
    ensures Names(TallyOf(events)) == TypeNames(events)
  {
    if |events| > 0 {
      TallyCountsEveryEvent(events[..|events| - 1]);
      BumpCounts(TallyOf(events[..|events| - 1]), events[|events| - 1].typeName);
    }
  }

  predicate MentionsError(rendering: string) {
    Contains(Lower(rendering), "error") || Contains(Lower(rendering), "failed")
  }

  predicate MentionsSuccess(rendering: string) {
    Contains(Lower(rendering), "success") || Contains(Lower(rendering), "completed")
  }

  /** An event that mentions success and no error goes to `key_results`. */
  predicate ListedAsSuccess(e: Event) {
    !MentionsError(e.rendering) && MentionsSuccess(e.rendering)
  }

  /** The tag "错误: ", the first 100 characters of the event, then "...". */
  function ErrorSnippet(e: Event): (r: string)
    ensures |r| == 7 + MinInt(100, |e.rendering|) <= 107
    ensures r[..4] == "错误: " && r[|r| - 3..] == "..."
    ensures r[4..|r| - 3] == e.rendering[..|r| - 7]
  {
    "错误: " + Take(e.rendering, 100) + "..."
  }

  /** The tag "成功: ", the first 100 characters of the event, then "...". */
  function SuccessSnippet(e: Event): (r: string)
    ensures |r| == 7 + MinInt(100, |e.rendering|) <= 107
    ensures r[..4] == "成功: " && r[|r| - 3..] == "..."
    ensures r[4..|r| - 3] == e.rendering[..|r| - 7]
  {
    "成功: " + Take(e.rendering, 100) + "..."
  }

  /** The `errors` list: one snippet per event that mentions an error. */
  function ErrorSnippets(events: seq<Event>): seq<string> {
    if |events| == 0 then []
    else
      var last := events[|events| - 1];
      ErrorSnippets(events[..|events| - 1]) + (if MentionsError(last.rendering) then [ErrorSnippet(last)] else [])
  }

  /** The `key_results` list: one snippet per event that mentions success
      and no error. */
  function SuccessSnippets(events: seq<Event>): seq<string> {
    if |events| == 0 then []
    else
      var last := events[|events| - 1];
      SuccessSnippets(events[..|events| - 1])
        + (if ListedAsSuccess(last) then [SuccessSnippet(last)] else [])
  }

  /** An event is listed at most once: as an error, as a success, or not at all. */
  lemma {:induction false} SnippetsDisjoint(events: seq<Event>)
    ensures |ErrorSnippets(events)| + |SuccessSnippets(events)| <= |events|
  {
    if |events| > 0 {
      SnippetsDisjoint(events[..|events| - 1]);
    }
  }

  /** Every error snippet, at most 107 characters, is the snippet of an event
      that mentions an error. */
  lemma {:induction false} ErrorSnippetsSound(events: seq<Event>)
    ensures forall k :: 0 <= k < |ErrorSnippets(events)| ==>
      |ErrorSnippets(events)[k]| <= 107
      && exists j ::
        0 <= j < |events| && MentionsError(events[j].rendering) && ErrorSnippets(events)[k] == ErrorSnippet(events[j])
  {
    if |events| > 0 {
      var init := events[..|events| - 1];
      ErrorSnippetsSound(init);
      var last := events[|events| - 1];
      var tail := if MentionsError(last.rendering) then [ErrorSnippet(last)] else [];
      assert ErrorSnippets(events) == ErrorSnippets(init) + tail;
      forall k | 0 <= k < |ErrorSnippets(events)|
        ensures exists j ::
          0 <= j < |events| && MentionsError(events[j].rendering) && ErrorSnippets(events)[k] == ErrorSnippet(events[j])
      {
        if k < |ErrorSnippets(init)| {
          assert ErrorSnippets(events)[k] == ErrorSnippets(init)[k];
          var j :| 0 <= j < |init| && MentionsError(init[j].rendering) && ErrorSnippets(init)[k] == ErrorSnippet(init[j]);
          assert events[j] == init[j];
        } else {
          assert events[|events| - 1] == last;
        }
      }
    }
  }

  /** Every event that mentions an error has its snippet in the `errors` list. */
  lemma {:induction false} ErrorSnippetsComplete(events: seq<Event>)
    ensures forall j :: 0 <= j < |events| && MentionsError(events[j].rendering) ==>
      ErrorSnippet(events[j]) in ErrorSnippets(events)
  {
    if |events| > 0 {
      var init := events[..|events| - 1];
      ErrorSnippetsComplete(init);
      var last := events[|events| - 1];
      var tail := if MentionsError(last.rendering) then [ErrorSnippet(last)] else [];
      assert ErrorSnippets(events) == ErrorSnippets(init) + tail;
      forall j | 0 <= j < |events| && MentionsError(events[j].rendering)
        ensures ErrorSnippet(events[j]) in ErrorSnippets(events)
      {
        if j < |init| {
          assert events[j] == init[j];
          assert ErrorSnippet(events[j]) in ErrorSnippets(init);
        } else {
          assert events[j] == last;
          assert ErrorSnippet(events[j]) in tail;
        }
      }
    }
  }

  /** Every success snippet, at most 107 characters, is the snippet of an event
      that mentions success and no error. */
  lemma {:induction false} SuccessSnippetsSound(events: seq<Event>)
    ensures forall k :: 0 <= k < |SuccessSnippets(events)| ==>
      |SuccessSnippets(events)[k]| <= 107
      && exists j ::
        0 <= j < |events| && ListedAsSuccess(events[j]) && SuccessSnippets(events)[k] == SuccessSnippet(events[j])
  {
    if |events| > 0 {
      var init := events[..|events| - 1];
      SuccessSnippetsSound(init);
      var last := events[|events| - 1];
      var tail := if ListedAsSuccess(last) then [SuccessSnippet(last)] else [];
      assert SuccessSnippets(events) == SuccessSnippets(init) + tail;
      forall k | 0 <= k < |SuccessSnippets(events)|
        ensures exists j ::
          0 <= j < |events| && ListedAsSuccess(events[j]) && SuccessSnippets(events)[k] == SuccessSnippet(events[j])
      {
        if k < |SuccessSnippets(init)| {
          assert SuccessSnippets(events)[k] == SuccessSnippets(init)[k];
          var j :| 0 <= j < |init| && ListedAsSuccess(init[j]) && SuccessSnippets(init)[k] == SuccessSnippet(init[j]);
          assert events[j] == init[j];
        } else {
          assert events[|events| - 1] == last;
        }
      }
    }
  }

  /** Every event that mentions success and no error has its snippet in the
      `key_results` list. */
  lemma {:induction false} SuccessSnippetsComplete(events: seq<Event>)
    ensures forall j :: 0 <= j < |events| && ListedAsSuccess(events[j]) ==>
      SuccessSnippet(events[j]) in SuccessSnippets(events)
  {
    if |events| > 0 {
      var init := events[..|events| - 1];
      SuccessSnippetsComplete(init);
      var last := events[|events| - 1];
      var tail := if ListedAsSuccess(last) then [SuccessSnippet(last)] else [];
      assert SuccessSnippets(events) == SuccessSnippets(init) + tail;
      forall j | 0 <= j < |events| && ListedAsSuccess(events[j])
        ensures SuccessSnippet(events[j]) in SuccessSnippets(events)
      {
        if j < |init| {
          assert events[j] == init[j];
          assert SuccessSnippet(events[j]) in SuccessSnippets(init);
        } else {
          assert events[j] == last;
          assert SuccessSnippet(events[j]) in tail;
        }
      }
    }
  }

  function TallyEntries(tally: Tally): seq<string> {
    seq(|tally|, k requires 0 <= k < |tally| => tally[k].0 + "(" + NatToString(tally[k].1) + ")")
  }

  /** `s[:3]`. */
  function FirstThree(s: seq<string>): (r: seq<string>)
    ensures |r| <= 3 && |r| <= |s| && r == s[..|r|]
  {
    if |s| <= 3 then s else s[..3]
  }

  const FALLBACK_HEADER := "语义压缩(后备模式):\n"

  function TypesLine(tally: Tally): string {
    if |tally| > 0 then "事件类型: " + Join(TallyEntries(tally), ", ") + "\n" else ""
  }

  function ListBlock(title: string, items: seq<string>): string {
    if |items| > 0 then title + Join(FirstThree(items), "\n") + "\n" else ""
  }

  function PreviousStateLine(summary: Event): string {
    if SummaryText(summary) != "" then "\n之前状态: " + Take(SummaryText(summary), 200) + "..." else ""
  }

  /** The fallback summary before the 1000-character cut. */
  function FallbackText(events: seq<Event>, summary: Event): string {
    FALLBACK_HEADER
    + ("处理了 " + NatToString(|events|) + " 个事件\n")
    + TypesLine(TallyOf(events))
    + ListBlock("关键成果:\n", SuccessSnippets(events))
    + ListBlock("遇到错误:\n", ErrorSnippets(events))
    + PreviousStateLine(summary)
  }

  /** `_fallback_compression`: the rule-based summary, cut to 1000 characters. */
  function FallbackSummary(events: seq<Event>, summary: Event): string {
    Take(FallbackText(events, summary), 1000)
  }

  /** The fallback summary is at most 1000 characters, opens with the
      fallback header and then the number of events it stands for. */
  lemma FallbackSummaryShape(events: seq<Event>, summary: Event)
    ensures var r := FallbackSummary(events, summary);
      |r| <= 1000
      && |r| >= |FALLBACK_HEADER|
      && r[..|FALLBACK_HEADER|] == FALLBACK_HEADER
  {
    var count := "处理了 " + NatToString(|events|) + " 个事件\n";
    var a := FALLBACK_HEADER + count;
    var b := a + TypesLine(TallyOf(events));
    var d := b + ListBlock("关键成果:\n", SuccessSnippets(events));
    var e := d + ListBlock("遇到错误:\n", ErrorSnippets(events));
    var f := e + PreviousStateLine(summary);
    assert f == FallbackText(events, summary);
    var n := |FALLBACK_HEADER|;
    PrefixOfAppend(FALLBACK_HEADER, count, n);
    PrefixOfAppend(a, TypesLine(TallyOf(events)), n);
    PrefixOfAppend(b, ListBlock("关键成果:\n", SuccessSnippets(events)), n);
    PrefixOfAppend(d, ListBlock("遇到错误:\n", ErrorSnippets(events)), n);
    PrefixOfAppend(e, PreviousStateLine(summary), n);
    assert Take(f, 1000)[..n] == f[..n];
  }

  /** `_fallback_compression` as the source runs it: one pass over the
      events filling the type tally and the two snippet lists, then the
      text is assembled piece by piece. */
  method FallbackCompression(events: seq<Event>, summary: Event) returns (r: string)
    ensures r == FallbackSummary(events, summary)
  {
    var tally: Tally := [];
    var results: seq<string> := [];
    var errors: seq<string> := [];
    for i := 0 to |events|
      invariant tally == TallyOf(events[..i])
      invariant results == SuccessSnippets(events[..i])
      invariant errors == ErrorSnippets(events[..i])
    {
      assert events[..i + 1][..i] == events[..i];
      var e := events[i];
      tally := Bump(tally, e.typeName);
      if MentionsError(e.rendering) {
        errors := errors + [ErrorSnippet(e)];
      } else if MentionsSuccess(e.rendering) {
        results := results + [SuccessSnippet(e)];
      }
    }
    assert events[..|events|] == events;
    var text := FALLBACK_HEADER;
    text := text + ("处理了 " + NatToString(|events|) + " 个事件\n");
    if |tally| > 0 {
      text := text + ("事件类型: " + Join(TallyEntries(tally), ", ") + "\n");
    } else {
      assert text + TypesLine(tally) == text;
    }
    if |results| > 0 {
      text := text + ("关键成果:\n" + Join(FirstThree(results), "\n") + "\n");
    } else {
      assert text + ListBlock("关键成果:\n", results) == text;
    }
    if |errors| > 0 {
      text := text + ("遇到错误:\n" + Join(FirstThree(errors), "\n") + "\n");
    } else {
      assert text + ListBlock("遇到错误:\n", errors) == text;
    }
    if SummaryText(summary) != "" {
      text := text + ("\n之前状态: " + Take(SummaryText(summary), 200) + "...");
    } else {
      assert text + PreviousStateLine(summary) == text;
    }
    r := Take(text, 1000);
  }

  // ---------------------------------------------------------------------
  // Compression

  /** What the summarisation call gave: a reply whose text may be `None`,
      or an exception (raised by the call or by the metadata it records). */
  datatype LlmReply = Replied(content: Option<string>) | CallRaised

  /** `sum(len(str(event)) for event in forgotten_events)`. */
  function TotalLength(events: seq<Event>): nat {
    if |events| == 0 then 0 else TotalLength(events[..|events| - 1]) + |events[|events| - 1].rendering|
  }

  const COMPRESSION_FAILED := "压缩失败"

  /** The summary `_compress_conversation_segment` returns: the reply text
      (or the failure marker when it is empty), unless the call raised or
      the compression ratio divides by a zero total length, in which case
      the fallback summary. */
  function CompressedSummary(events: seq<Event>, summary: Event, reply: LlmReply): (r: string)
    ensures r != ""
    ensures reply.CallRaised? || TotalLength(events) == 0 ==> r == FallbackSummary(events, summary)
  {
    if reply.Replied? && TotalLength(events) > 0 then
      (if reply.content.Some? && reply.content.value != "" then reply.content.value else COMPRESSION_FAILED)
    else
      FallbackSummary(events, summary)
  }

  /** `_compress_conversation_segment`: builds the prompt that is sent,
      then takes the reply or falls back. */
  method CompressConversationSegment(c: Condenser, forgotten: seq<Event>, summary: Event,
                                     truncate: (string, int) -> string, reply: LlmReply)
    returns (compressed: string, prompt: string)
    ensures prompt == Prompt(c, summary, forgotten, truncate)
    ensures compressed == CompressedSummary(forgotten, summary, reply)
  {
    prompt := BuildPrompt(c, summary, forgotten, truncate);
    if reply.Replied? {
      compressed := if reply.content.Some? && reply.content.value != "" then reply.content.value
                    else COMPRESSION_FAILED;
      if TotalLength(forgotten) > 0 {
        return;
      }
    }
    compressed := FallbackCompression(forgotten, summary);
  }

  // ---------------------------------------------------------------------
  // The condensation

  /** The action appended to the event log. */
  datatype CondensationAction = CondensationAction(
    startId: int,
    endId: int,
    summary: string,
    summaryOffset: int)

  const NOTHING_TO_COMPRESS := "No events to compress"

  /** `get_condensation`. `forgotten` is the selection it made; the view
      being empty makes `view[-1]` raise. */
  method GetCondensation(c: Condenser, view: View, truncate: (string, int) -> string, reply: LlmReply)
    returns (r: Result<CondensationAction>, ghost forgotten: seq<Event>)
    requires Valid(c)
    ensures Selected(c, view, forgotten)
    ensures r.Err? <==> view == []
    ensures r.Ok? ==> r.value.summaryOffset == c.keepFirst
    ensures r.Ok? && forgotten == [] ==>
      r.value == CondensationAction(view[|view| - 1].id, view[|view| - 1].id, NOTHING_TO_COMPRESS, c.keepFirst)
    ensures forgotten != [] ==>
      r == Ok(CondensationAction(MinId(forgotten), MaxId(forgotten),
                                 CompressedSummary(forgotten, GetOrCreateSummary(c, view), reply),
                                 c.keepFirst))
  {
    var summary := GetOrCreateSummary(c, view);
    var selected := IdentifyEventsToForget(c, view);
    forgotten := selected;
    if selected == [] {
      if view == [] {
        SelectedInMiddle(c, view, selected);
        return Err("IndexError: list index out of range"), forgotten;
      }
      r := Ok(CondensationAction(view[|view| - 1].id, view[|view| - 1].id, NOTHING_TO_COMPRESS, c.keepFirst));
      return;
    }
    SelectedInMiddle(c, view, selected);
    var compressed, _ := CompressConversationSegment(c, selected, summary, truncate, reply);
    r := Ok(CondensationAction(MinId(selected), MaxId(selected), compressed, c.keepFirst));
  }

  /** A view over budget with no summary in its middle always gets a real
      condensation: something is forgotten. */
  lemma OverBudgetForgetsSomething(c: Condenser, view: View, forgotten: seq<Event>)
    requires Valid(c) && ShouldCondense(c, view) && Selected(c, view, forgotten)
    requires forall k :: c.keepFirst <= k < |view| ==> !IsSummary(view[k])
    ensures |Candidates(c, view)| == MiddleEnd(c, view) - c.keepFirst
    ensures forgotten != []
  {
    OverBudgetHasMiddle(c, view);
    var middle := view[c.keepFirst..MiddleEnd(c, view)];
    NonSummariesFrom(middle);
  }

  /** The worked example: ten events, `max_size` 8, `keep_first` 1, ratio
      0.5. The target is 4, two tail events are kept, the seven events at
      indices 1..7 are candidates, and three of them (7 // 2) are forgotten. */
  lemma TenEventExample(view: View, forgotten: seq<Event>)
    requires |view| == 10 && forall k :: 0 <= k < 10 ==> !IsSummary(view[k])
    requires Selected(Condenser(8, 1, 0.5, 8000, true), view, forgotten)
    ensures TargetSize(Condenser(8, 1, 0.5, 8000, true)) == 4
    ensures Candidates(Condenser(8, 1, 0.5, 8000, true), view) == view[1..8]
    ensures |forgotten| == 3
  {
    var c := Condenser(8, 1, 0.5, 8000, true);
    assert (8 as real * 0.5).Floor == 4;
    NonSummariesFrom(view[1..8]);
  }
}
