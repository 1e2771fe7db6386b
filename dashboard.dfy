/** The dashboard router (`app/routers/dashboard.py`): the statistics of a user's completed
    sessions and the per-category breakdown, computed in memory from the session rows. */
module Dashboard {
  import opened Wrappers
  import opened Text
  import opened Stats

  /** The columns of an interview-session row the dashboard reads. `categoryScores` is the
      stored JSON object's items in order; `None` and `{}` are both the empty list. */
  datatype DashSession = DashSession(
    status: string, overallScore: Option<real>, categoryScores: seq<(string, real)>,
    recommendations: Option<seq<string>>, company: string, role: string, mode: string)

  /** The completed sessions, in row order (`status == "completed"`). */
  function CompletedOf(sessions: seq<DashSession>): (r: seq<DashSession>)
    ensures |r| <= |sessions|
    ensures forall s :: s in r <==> s in sessions && s.status == "completed"
  {
    if sessions == [] then []
    else
      var last := sessions[|sessions| - 1];
      CompletedOf(sessions[..|sessions| - 1]) + (if last.status == "completed" then [last] else [])
  }

  /** `if session.overall_score`: a score that is present and non-zero. */
  function TruthyScores(sessions: seq<DashSession>): (r: seq<real>)
    ensures |r| <= |sessions|
    ensures forall x :: x in r ==> x != 0.0 && exists s :: s in sessions && s.overallScore == Some(x)
  {
    if sessions == [] then []
    else
      var last := sessions[|sessions| - 1];
      var init := sessions[..|sessions| - 1];
      assert forall s :: s in init ==> s in sessions;
      TruthyScores(init)
      + (if last.overallScore.Some? && last.overallScore.value != 0.0 then [last.overallScore.value] else [])
  }

  /** `averageScore` (before rounding): the mean of the truthy overall scores, or 0. */
  function AverageScore(completed: seq<DashSession>): (r: real)
    ensures TruthyScores(completed) == [] ==> r == 0.0
  {
    MeanOrZero(TruthyScores(completed))
  }

  /** Overall scores that stay in a range make an average in that range (or 0 when none counts). */
  lemma AverageScoreBounded(completed: seq<DashSession>, lo: real, hi: real)
    requires forall s :: s in completed && s.overallScore.Some? ==> lo <= s.overallScore.value <= hi
    requires TruthyScores(completed) != []
    ensures lo <= AverageScore(completed) <= hi
  {
    var t := TruthyScores(completed);
    forall i | 0 <= i < |t| ensures lo <= t[i] <= hi {
      assert t[i] in t;
    }
    MeanBounds(t, lo, hi);
  }

  // ---------------------------------------------------------------------------------------
  // Total time

  /** `func.sum(Answer.time_spent) ... or 0`: SQL's SUM skips NULLs; no non-NULL time gives 0. */
  function TotalMinutes(timeSpent: seq<Option<int>>): (r: int)
    ensures (forall k :: 0 <= k < |timeSpent| ==> timeSpent[k].None?) ==> r == 0
    ensures (forall k :: 0 <= k < |timeSpent| && timeSpent[k].Some? ==> timeSpent[k].value >= 0) ==> r >= 0
  {
    if timeSpent == [] then 0
    else (if timeSpent[0].Some? then timeSpent[0].value else 0) + TotalMinutes(timeSpent[1..])
  }

  /** `int(minutes / 60)`: the quotient truncated toward zero. */
  function Hours(minutes: int): (h: int)
    ensures minutes >= 0 ==> h >= 0 && 60 * h <= minutes < 60 * h + 60
    ensures minutes < 0 ==> h <= 0 && 60 * h - 60 < minutes <= 60 * h
  {
    if minutes >= 0 then minutes / 60 else -((-minutes) / 60)
  }

  /** `f"{int(hours)}h {int(minutes % 60)}m"`, where `%` is Python's floor modulo. */
  function TotalTime(minutes: int): (r: string)
    ensures minutes >= 0 ==> r == NatToString(minutes / 60) + "h " + NatToString(minutes % 60) + "m"
  {
    IntToString(Hours(minutes)) + "h " + IntToString(minutes % 60) + "m"
  }

  /** The first position of `c` in `s`. */
  function IndexOfChar(s: string, c: char): (r: Option<nat>)
    ensures r.Some? ==> r.value < |s| && s[r.value] == c && forall k :: 0 <= k < r.value ==> s[k] != c
    ensures r.None? ==> c !in s
  {
    if s == [] then None
    else if s[0] == c then Some(0)
    else match IndexOfChar(s[1..], c)
      case None => None
      case Some(i) => Some(i + 1)
  }

  /** Reads an "Hh Mm" string back into hours and minutes. */
  function ParseTotalTime(s: string): Option<(nat, nat)> {
    match IndexOfChar(s, 'h')
    case None => None
    case Some(i) =>
      var rest := s[i..];
      if |rest| < 3 || rest[1] != ' ' || rest[|rest| - 1] != 'm' then None
      else match (ParseNat(s[..i]), ParseNat(rest[2..|rest| - 1]))
        case (Some(h), Some(m)) => Some((h, m))
        case _ => None
  }

  lemma {:induction false} IndexAfterDigits(digits: string, rest: string)
    requires forall k :: 0 <= k < |digits| ==> '0' <= digits[k] <= '9'
    requires rest != [] && rest[0] == 'h'
    ensures IndexOfChar(digits + rest, 'h') == Some(|digits|)
  {
    if digits != [] {
      assert (digits + rest)[1..] == digits[1..] + rest;
      IndexAfterDigits(digits[1..], rest);
    } else {
      assert digits + rest == rest;
    }
  }

  /** For a non-negative total, the text reads back as hours and minutes with fewer than 60
      minutes that add up to the total. */
  lemma TotalTimeRoundTrip(minutes: nat)
    ensures ParseTotalTime(TotalTime(minutes)).Some?
    ensures var (h, m) := ParseTotalTime(TotalTime(minutes)).value;
      m < 60 && 60 * h + m == minutes
  {
    var hs := NatToString(minutes / 60);
    var ms := NatToString(minutes % 60);
    var s := TotalTime(minutes);
    assert s == hs + ("h " + ms + "m");
    IndexAfterDigits(hs, "h " + ms + "m");
    var rest := s[|hs|..];
    assert rest == "h " + ms + "m";
    assert s[..|hs|] == hs;
    assert rest[2..|rest| - 1] == ms;
    ParseNatToString(minutes / 60);
    ParseNatToString(minutes % 60);
  }

  /** A negative total mixes a truncated hour count with a floor remainder: -1 minute
      is shown as "0h 59m". */
  lemma NegativeTotalTime()
    ensures TotalTime(-1) == "0h 59m"
  {
    assert Hours(-1) == 0;
    assert -1 % 60 == 59;
    assert NatToString(0) == "0";
    assert NatToString(5) == "5";
    assert NatToString(59) == NatToString(5) + [Digit(9)];
  }

  // ---------------------------------------------------------------------------------------
  // Category averages

  /** The (category, score) items of the sessions' category scores, session after session. */
  function Entries(sessions: seq<DashSession>): seq<(string, real)> {
    if sessions == [] then []
    else Entries(sessions[..|sessions| - 1]) + sessions[|sessions| - 1].categoryScores
  }

  /** The categories of `e` in the order they are first seen: the key order of the
      dictionary the router builds. */
  function FirstSeen(e: seq<(string, real)>): (r: seq<string>)
    ensures forall i, j :: 0 <= i < j < |r| ==> r[i] != r[j]
  {
    if e == [] then []
    else
      var init := e[..|e| - 1];
      var c := e[|e| - 1].0;
      var prev := FirstSeen(init);
      assert forall k :: 0 <= k < |init| ==> init[k] == e[k];
      if c in prev then prev else prev + [c]
  }

  /** The scores given to category `c`, in order. */
  function ScoresFor(e: seq<(string, real)>, c: string): (r: seq<real>)
    ensures |r| <= |e|
    ensures r != [] <==> c in FirstSeen(e)
  {
    if e == [] then []
    else
      var init := e[..|e| - 1];
      ScoresFor(init, c) + (if e[|e| - 1].0 == c then [e[|e| - 1].1] else [])
  }

  /** The dictionary's keys are exactly the categories that occur. */
  lemma {:induction false} FirstSeenMembers(e: seq<(string, real)>)
    ensures forall c :: c in FirstSeen(e) <==> exists k :: 0 <= k < |e| && e[k].0 == c
  {
    if e != [] {
      var init := e[..|e| - 1];
      FirstSeenMembers(init);
      assert forall k :: 0 <= k < |init| ==> init[k] == e[k];
    }
  }

  /** One more item extends both the first-seen order and the score lists. */
  lemma EntriesStep(e: seq<(string, real)>, x: (string, real))
    ensures FirstSeen(e + [x]) == (if x.0 in FirstSeen(e) then FirstSeen(e) else FirstSeen(e) + [x.0])
    ensures forall c :: ScoresFor(e + [x], c) == ScoresFor(e, c) + (if x.0 == c then [x.1] else [])
  {
    assert (e + [x])[..|e|] == e;
  }

  /** `order`, `lists` and `counts` are the dictionary the router has built from the items `e`. */
  ghost predicate Collected(e: seq<(string, real)>, order: seq<string>, lists: map<string, seq<real>>, counts: map<string, nat>) {
    && order == FirstSeen(e)
    && (forall c :: c in lists <==> c in order)
    && (forall c :: c in lists ==> lists[c] == ScoresFor(e, c))
    && (forall c :: c in counts <==> c in order)
    && (forall c :: c in counts ==> counts[c] == |lists[c]|)
  }

  /** The loop that gathers each category's scores across the sessions, keeping the key
      order; `counts` is the breakdown's per-category session counter, bumped with every
      appended score. */
  method CollectCategoryScores(sessions: seq<DashSession>)
    returns (order: seq<string>, lists: map<string, seq<real>>, counts: map<string, nat>)
    ensures Collected(Entries(sessions), order, lists, counts)
  {
    order, lists, counts := [], map[], map[];
    var i := 0;
    while i < |sessions|
      invariant 0 <= i <= |sessions|
      invariant Collected(Entries(sessions[..i]), order, lists, counts)
    {
      order, lists, counts := CollectItems(Entries(sessions[..i]), sessions[i].categoryScores, order, lists, counts);
      assert sessions[..i + 1][..i] == sessions[..i];
      i := i + 1;
    }
    assert sessions[..i] == sessions;
  }

  /** The inner loop over one session's items. */
  method CollectItems(
    ghost before: seq<(string, real)>, items: seq<(string, real)>,
    order0: seq<string>, lists0: map<string, seq<real>>, counts0: map<string, nat>)
    returns (order: seq<string>, lists: map<string, seq<real>>, counts: map<string, nat>)
    requires Collected(before, order0, lists0, counts0)
    ensures Collected(before + items, order, lists, counts)
  {
    order, lists, counts := order0, lists0, counts0;
    var j := 0;
    assert before + items[..0] == before;
    while j < |items|
      invariant 0 <= j <= |items|
      invariant Collected(before + items[..j], order, lists, counts)
    {
      ghost var e := before + items[..j];
      order, lists, counts := AddItem(e, items[j], order, lists, counts);
      assert before + items[..j + 1] == e + [items[j]];
      j := j + 1;
    }
    assert items[..j] == items;
  }

  /** The loop body: `category_scores.setdefault(c, []).append(score)` and the counter. */
  method AddItem(
    ghost e: seq<(string, real)>, x: (string, real),
    order0: seq<string>, lists0: map<string, seq<real>>, counts0: map<string, nat>)
    returns (order: seq<string>, lists: map<string, seq<real>>, counts: map<string, nat>)
    requires Collected(e, order0, lists0, counts0)
    ensures Collected(e + [x], order, lists, counts)
  {
    var (c, score) := x;
    order, lists, counts := order0, lists0, counts0;
    if c !in lists {
      lists := lists[c := []];
      counts := counts[c := 0];
      order := order + [c];
    }
    lists := lists[c := lists[c] + [score]];
    counts := counts[c := counts[c] + 1];
    CollectStep(e, x, order0, lists0, counts0);
  }

  /** One `setdefault(c, []).append(score)` with its counter keeps the dictionary in step. */
  lemma CollectStep(
    e: seq<(string, real)>, x: (string, real),
    order: seq<string>, lists: map<string, seq<real>>, counts: map<string, nat>)
    requires Collected(e, order, lists, counts)
    ensures var (c, score) := x;
      var order' := if c in lists then order else order + [c];
      var lists' := if c in lists then lists else lists[c := []];
      var counts' := if c in lists then counts else counts[c := 0];
      Collected(e + [x], order', lists'[c := lists'[c] + [score]], counts'[c := counts'[c] + 1])
  {
    EntriesStep(e, x);
  }

  const Colors := ["#8B5CF6", "#10B981", "#F59E0B", "#EF4444", "#06B6D4"]

  /** `category.replace("_", " ")`, before `title()`. */
  function Label(category: string): string { ReplaceChar(category, '_', ' ') }

  datatype CategoryAverage = CategoryAverage(name: string, score: real, color: string)

  /** The average of category `order[i]`, coloured by its position. */
  function AverageAt(e: seq<(string, real)>, i: nat): (a: CategoryAverage)
    requires i < |FirstSeen(e)|
    ensures a.score == Mean(ScoresFor(e, FirstSeen(e)[i]))
    ensures a.name == Label(FirstSeen(e)[i]) && a.color == Colors[i % 5]
  {
    var c := FirstSeen(e)[i];
    CategoryAverage(Label(c), Mean(ScoresFor(e, c)), Colors[i % 5])
  }

  /** `categoryAverages` (before rounding): one entry per category in first-seen order, its
      mean score, and the colours taken in turn. */
  method CategoryAverages(completed: seq<DashSession>) returns (r: seq<CategoryAverage>)
    ensures |r| == |FirstSeen(Entries(completed))|
    ensures forall i :: 0 <= i < |r| ==> r[i] == AverageAt(Entries(completed), i)
  {
    ghost var e := Entries(completed);
    var order, lists, _ := CollectCategoryScores(completed);
    r := [];
    var i := 0;
    while i < |order|
      invariant 0 <= i <= |order| == |FirstSeen(e)|
      invariant |r| == i
      invariant forall k :: 0 <= k < i ==> r[k] == AverageAt(e, k)
    {
      var c := order[i];
      assert lists[c] == ScoresFor(e, c);
      r := r + [CategoryAverage(Label(c), MeanOrZero(lists[c]), Colors[i % |Colors|])];
      i := i + 1;
    }
  }

  /** Five consecutive categories never share a colour. */
  lemma ColorsCycle(i: nat, j: nat)
    requires i < j < i + 5
    ensures Colors[i % 5] != Colors[j % 5]
  {
    var a, b := i % 5, j % 5;
    assert a != b by {
      assert i == 5 * (i / 5) + a;
      assert j == 5 * (j / 5) + b;
    }
  }

  /** `improvementAreas` (before rounding): how many categories average under 7. */
  function ImprovementAreas(averages: seq<CategoryAverage>): (n: nat)
    ensures n <= |averages|
    ensures n == 0 <==> forall i :: 0 <= i < |averages| ==> averages[i].score >= 7.0
  {
    if averages == [] then 0
    else (if averages[0].score < 7.0 then 1 else 0) + ImprovementAreas(averages[1..])
  }

  /** Each category average lies between the worst and the best score that category got. */
  lemma CategoryAverageBetween(e: seq<(string, real)>, c: string)
    requires c in FirstSeen(e)
    ensures SeqMin(ScoresFor(e, c)) <= Mean(ScoresFor(e, c)) <= SeqMax(ScoresFor(e, c))
  {
    MinMeanMax(ScoresFor(e, c));
  }

  // ---------------------------------------------------------------------------------------
  // Recent sessions

  datatype RecentSession = RecentSession(
    company: string, role: string, mode: string, score: real, recommendations: seq<string>)

  /** `recentSessions`: the first five rows of the newest-first query, each with its first
      three recommendations and its truthy overall score or 0. */
  function RecentSessions(newestFirst: seq<DashSession>): (r: seq<RecentSession>)
    ensures |r| == if |newestFirst| < 5 then |newestFirst| else 5
    ensures forall i :: 0 <= i < |r| ==>
      var s := newestFirst[i];
      && r[i].company == s.company && r[i].role == s.role && r[i].mode == s.mode
      && r[i].score == (if s.overallScore.Some? && s.overallScore.value != 0.0 then s.overallScore.value else 0.0)
      && |r[i].recommendations| <= 3
      && (s.recommendations.Some? && |s.recommendations.value| <= 3 ==> r[i].recommendations == s.recommendations.value)
      && (s.recommendations.Some? && |s.recommendations.value| > 3 ==> r[i].recommendations == s.recommendations.value[..3])
      && (s.recommendations.None? ==> r[i].recommendations == [])
  {
    var rows := if |newestFirst| < 5 then newestFirst else newestFirst[..5];
    seq(|rows|, i requires 0 <= i < |rows| => Recent(rows[i]))
  }

  function Recent(s: DashSession): (r: RecentSession)
    ensures |r.recommendations| <= 3
    ensures s.recommendations.Some? && |s.recommendations.value| <= 3 ==> r.recommendations == s.recommendations.value
    ensures s.recommendations.Some? && |s.recommendations.value| > 3 ==> r.recommendations == s.recommendations.value[..3]
    ensures s.recommendations.None? ==> r.recommendations == []
    ensures r.company == s.company && r.role == s.role && r.mode == s.mode
    ensures r.score == (if s.overallScore.Some? && s.overallScore.value != 0.0 then s.overallScore.value else 0.0)
  {
    var recs := match s.recommendations
      case None => []
      case Some(list) => if |list| <= 3 then list else list[..3];
    RecentSession(
      s.company, s.role, s.mode,
      if s.overallScore.Some? && s.overallScore.value != 0.0 then s.overallScore.value else 0.0,
      recs)
  }

  // ---------------------------------------------------------------------------------------
  // Category breakdown

  /** The `trend` field: the JSON strings "improving" and "stable". */
  datatype Trend = Improving | Stable

  datatype Breakdown = Breakdown(
    category: string, average: real, best: real, worst: real, sessions: nat, trend: Trend)

  /** One breakdown row (before rounding): the worst score is at most the average and the
      average at most the best, and the trend is "improving" exactly when there are two or
      more scores and the last beats the first. */
  function BreakdownOf(category: string, scores: seq<real>, sessions: nat): (b: Breakdown)
    requires scores != []
    ensures b.worst <= b.average <= b.best
    ensures b.average == Mean(scores) && b.best == SeqMax(scores) && b.worst == SeqMin(scores)
    ensures b.trend == Improving <==> |scores| > 1 && scores[|scores| - 1] > scores[0]
    ensures b.sessions == sessions && b.category == Label(category)
  {
    MinMeanMax(scores);
    Breakdown(
      Label(category), Mean(scores), SeqMax(scores), SeqMin(scores), sessions,
      if |scores| > 1 && scores[|scores| - 1] > scores[0] then Improving else Stable)
  }

  /** The breakdown rows in first-seen order, before sorting. */
  function BreakdownRows(e: seq<(string, real)>): (r: seq<Breakdown>)
    ensures |r| == |FirstSeen(e)|
    ensures forall i :: 0 <= i < |r| ==>
      r[i] == BreakdownOf(FirstSeen(e)[i], ScoresFor(e, FirstSeen(e)[i]), |ScoresFor(e, FirstSeen(e)[i])|)
  {
    var order := FirstSeen(e);
    seq(|order|, i requires 0 <= i < |order| => BreakdownOf(order[i], ScoresFor(e, order[i]), |ScoresFor(e, order[i])|))
  }

  /** Non-increasing by average. */
  predicate SortedByAverage(s: seq<Breakdown>) {
    forall i, j :: 0 <= i < j < |s| ==> s[i].average >= s[j].average
  }

  /** The rows with average `k`, in order. */
  function WithAverage(s: seq<Breakdown>, k: real): seq<Breakdown> {
    if s == [] then []
    else WithAverage(s[..|s| - 1], k) + (if s[|s| - 1].average == k then [s[|s| - 1]] else [])
  }

  /** Puts `x` into a list sorted by average, after every row whose average is at least
      `x`'s: the place a stable descending sort gives a later row. */
  function Insert(t: seq<Breakdown>, x: Breakdown): (r: seq<Breakdown>)
    ensures |r| == |t| + 1
  {
    if t == [] || t[|t| - 1].average >= x.average then t + [x]
    else Insert(t[..|t| - 1], x) + [t[|t| - 1]]
  }

  /** `breakdown.sort(key=average, reverse=True)`: Python's sort is stable also when
      reversed, so rows with equal averages keep their order. */
  function SortByAverage(s: seq<Breakdown>): (r: seq<Breakdown>)
    ensures |r| == |s|
  {
    if s == [] then [] else Insert(SortByAverage(s[..|s| - 1]), s[|s| - 1])
  }

  /** Inserting keeps every row and adds `x`. */
  lemma {:induction false} InsertPermutes(t: seq<Breakdown>, x: Breakdown)
    ensures multiset(Insert(t, x)) == multiset(t) + multiset{x}
    decreases |t|
  {
    if !(t == [] || t[|t| - 1].average >= x.average) {
      InsertPermutes(t[..|t| - 1], x);
      assert t == t[..|t| - 1] + [t[|t| - 1]];
    }
  }

  /** A lower bound of every row and of `x` bounds the result too. */
  lemma {:induction false} InsertBound(t: seq<Breakdown>, x: Breakdown, b: real)
    requires forall i :: 0 <= i < |t| ==> t[i].average >= b
    requires x.average >= b
    ensures forall i :: 0 <= i < |Insert(t, x)| ==> Insert(t, x)[i].average >= b
    decreases |t|
  {
    if !(t == [] || t[|t| - 1].average >= x.average) {
      InsertBound(t[..|t| - 1], x, b);
    }
  }

  lemma {:induction false} InsertSorted(t: seq<Breakdown>, x: Breakdown)
    requires SortedByAverage(t)
    ensures SortedByAverage(Insert(t, x))
    decreases |t|
  {
    if !(t == [] || t[|t| - 1].average >= x.average) {
      var init := t[..|t| - 1];
      var last := t[|t| - 1];
      InsertSorted(init, x);
      InsertBound(init, x, last.average);
    }
  }

  /** The rows with average `k` of a list with one more row at the end. */
  lemma WithAverageSnoc(s: seq<Breakdown>, y: Breakdown, k: real)
    ensures WithAverage(s + [y], k) == WithAverage(s, k) + (if y.average == k then [y] else [])
  {
    assert (s + [y])[..|s|] == s;
  }

  /** Inserting `x` appends it to the rows of its own average and changes no other group. */
  lemma {:induction false} InsertStable(t: seq<Breakdown>, x: Breakdown, k: real)
    requires SortedByAverage(t)
    ensures WithAverage(Insert(t, x), k) == WithAverage(t, k) + (if x.average == k then [x] else [])
    decreases |t|
  {
    if t == [] || t[|t| - 1].average >= x.average {
      WithAverageSnoc(t, x, k);
    } else {
      var init := t[..|t| - 1];
      var last := t[|t| - 1];
      assert t == init + [last];
      assert SortedByAverage(init) by {
        forall i, j | 0 <= i < j < |init| ensures init[i].average >= init[j].average {
          assert init[i] == t[i] && init[j] == t[j];
        }
      }
      InsertStable(init, x, k);
      WithAverageSnoc(Insert(init, x), last, k);
      WithAverageSnoc(init, last, k);
      assert last.average < x.average;
    }
  }

  /** The breakdown is sorted by average, non-increasing. */
  lemma {:induction false} SortByAverageSorted(s: seq<Breakdown>)
    ensures SortedByAverage(SortByAverage(s))
  {
    if s != [] {
      SortByAverageSorted(s[..|s| - 1]);
      InsertSorted(SortByAverage(s[..|s| - 1]), s[|s| - 1]);
    }
  }

  /** The breakdown holds exactly the unsorted rows. */
  lemma {:induction false} SortByAveragePermutes(s: seq<Breakdown>)
    ensures multiset(SortByAverage(s)) == multiset(s)
  {
    if s != [] {
      SortByAveragePermutes(s[..|s| - 1]);
      InsertPermutes(SortByAverage(s[..|s| - 1]), s[|s| - 1]);
      assert s == s[..|s| - 1] + [s[|s| - 1]];
    }
  }

  /** Rows with equal averages keep their first-seen order. */
  lemma {:induction false} SortByAverageStable(s: seq<Breakdown>, k: real)
    ensures WithAverage(SortByAverage(s), k) == WithAverage(s, k)
  {
    if s != [] {
      SortByAverageStable(s[..|s| - 1], k);
      SortByAverageSorted(s[..|s| - 1]);
      InsertStable(SortByAverage(s[..|s| - 1]), s[|s| - 1], k);
    }
  }

  /** The row loop of `get_category_breakdown`: one row per key, in key order. */
  method BuildRows(order: seq<string>, lists: map<string, seq<real>>, counts: map<string, nat>)
    returns (rows: seq<Breakdown>)
    requires forall c :: c in order ==> c in lists && c in counts && lists[c] != []
    ensures |rows| == |order|
    ensures forall k :: 0 <= k < |order| ==> rows[k] == BreakdownOf(order[k], lists[order[k]], counts[order[k]])
  {
    rows := [];
    var i := 0;
    while i < |order|
      invariant 0 <= i <= |order|
      invariant |rows| == i
      invariant forall k :: 0 <= k < i ==> rows[k] == BreakdownOf(order[k], lists[order[k]], counts[order[k]])
    {
      var c := order[i];
      rows := rows + [BreakdownOf(c, lists[c], counts[c])];
      i := i + 1;
    }
  }

  /** Rows built from the collected dictionaries are the breakdown's rows. */
  lemma CollectedRows(e: seq<(string, real)>, order: seq<string>, lists: map<string, seq<real>>, counts: map<string, nat>, rows: seq<Breakdown>)
    requires Collected(e, order, lists, counts)
    requires |rows| == |order|
    requires forall k :: 0 <= k < |order| ==>
      order[k] in lists && order[k] in counts && lists[order[k]] != []
      && rows[k] == BreakdownOf(order[k], lists[order[k]], counts[order[k]])
    ensures rows == BreakdownRows(e)
  {
    var want := BreakdownRows(e);
    forall k | 0 <= k < |rows| ensures rows[k] == want[k] {
      var c := order[k];
      assert lists[c] == ScoresFor(e, c);
    }
  }

  /** `get_category_breakdown`: one row per category of the completed sessions, sorted by
      average with ties in first-seen order. */
  method CategoryBreakdown(completed: seq<DashSession>) returns (r: seq<Breakdown>)
    ensures r == SortByAverage(BreakdownRows(Entries(completed)))
  {
    var order, lists, counts := CollectCategoryScores(completed);
    var rows := BuildRows(order, lists, counts);
    CollectedRows(Entries(completed), order, lists, counts, rows);
    r := SortByAverage(rows);
  }

  /** Every sorted row still has worst <= average <= best and counts one session per score. */
  lemma BreakdownRowsSound(completed: seq<DashSession>)
    ensures var r := SortByAverage(BreakdownRows(Entries(completed)));
      SortedByAverage(r)
      && forall b :: b in r ==> b.worst <= b.average <= b.best
  {
    var rows := BreakdownRows(Entries(completed));
    SortByAverageSorted(rows);
    SortByAveragePermutes(rows);
    var r := SortByAverage(rows);
    forall b | b in r ensures b.worst <= b.average <= b.best {
      assert b in multiset(r);
      assert b in multiset(rows);
    }
  }

  // ---------------------------------------------------------------------------------------
  // The whole statistics response

  datatype DashboardStats = DashboardStats(
    sessionsCompleted: nat, averageScore: real, improvementAreas: nat, totalTime: string,
    categoryAverages: seq<CategoryAverage>, recentSessions: seq<RecentSession>)

  /** `get_dashboard_stats`, given the user's sessions, the `time_spent` of the user's
      answers, and the user's sessions newest first. */
  method GetDashboardStats(sessions: seq<DashSession>, timeSpent: seq<Option<int>>, newestFirst: seq<DashSession>)
    returns (r: DashboardStats)
    ensures var completed := CompletedOf(sessions);
      && r.sessionsCompleted == |completed|
      && r.averageScore == AverageScore(completed)
      && r.totalTime == TotalTime(TotalMinutes(timeSpent))
      && |r.categoryAverages| == |FirstSeen(Entries(completed))|
      && (forall i :: 0 <= i < |r.categoryAverages| ==> r.categoryAverages[i] == AverageAt(Entries(completed), i))
      && r.improvementAreas == ImprovementAreas(r.categoryAverages)
      && r.recentSessions == RecentSessions(newestFirst)
  {
    var completed := CompletedOf(sessions);
    var averages := CategoryAverages(completed);
    r := DashboardStats(
      |completed|, AverageScore(completed), ImprovementAreas(averages),
      TotalTime(TotalMinutes(timeSpent)), averages, RecentSessions(newestFirst));
  }
}
