/** `SessionController`: the validation and defaults of `createSession`, and
    the aggregation `getSessionStats` performs on the fetched sessions —
    totals, mean moods, and the per-day chart data grouped in a dictionary
    that a loop updates in place. The store is not part of this model: the
    ownership lookup, the insert and the fetched rows are parameters. */
module SessionController {
  import opened Wrappers
  import opened Json
  import opened Http
  import opened Text

  const MissingProblemMessage: string := "Problem ID is required"
  const ProblemNotFoundMessage: string := "Problem not found"

  /** The fields of the request body; `None` is `undefined`. */
  datatype SessionBody = SessionBody(
    problem_id: Option<Json>, affirmations_practiced: Option<Json>, duration_minutes: Option<Json>,
    mood_before: Option<Json>, mood_after: Option<Json>, notes: Option<Json>)

  /** The row sent to the `sessions` table; `undefined` fields stay `None`. */
  datatype SessionInsert = SessionInsert(
    user_id: string, problem_id: Json, affirmations_practiced: Json, duration_minutes: Json,
    mood_before: Option<Json>, mood_after: Option<Json>, notes: Option<Json>)

  /** The reply, the problem id looked up for ownership (if any) and the row
      inserted (if any). */
  datatype SessionOutcome = SessionOutcome(reply: Reply<Json>, lookup: Option<Json>, insert: Option<SessionInsert>)

  /** `SessionController.createSession`. `owned` is whether the ownership
      lookup found the problem; `inserted` is the store's answer to the
      insert. The destructuring defaults `= []` and `= 0` apply only to
      `undefined`. */
  function CreateSession(userId: string, body: SessionBody, owned: bool, inserted: Result<Json, string>)
    : (r: SessionOutcome)
    ensures !Truthy(body.problem_id) <==> r.lookup.None?
    ensures !Truthy(body.problem_id) ==> r.reply == Reply(400, ErrorBody(MissingProblemMessage)) && r.insert.None?
    ensures r.lookup.Some? ==> r.lookup == body.problem_id
    ensures r.insert.Some? <==> Truthy(body.problem_id) && owned
    ensures Truthy(body.problem_id) && !owned ==> r.reply == Reply(404, ErrorBody(ProblemNotFoundMessage))
    ensures r.insert.Some? ==>
      var row := r.insert.value;
      && Some(row.problem_id) == body.problem_id
      && row.user_id == userId
      && (body.affirmations_practiced.None? ==> row.affirmations_practiced == JArr([]))
      && (body.affirmations_practiced.Some? ==> row.affirmations_practiced == body.affirmations_practiced.value)
      && (body.duration_minutes.None? ==> row.duration_minutes == JNum(0))
      && (body.duration_minutes.Some? ==> row.duration_minutes == body.duration_minutes.value)
      && row.mood_before == body.mood_before && row.mood_after == body.mood_after && row.notes == body.notes
      && r.reply == (match inserted
                     case Failure(message) => Reply(400, ErrorBody(message))
                     case Success(session) => Reply(201, Payload(session)))
  {
    if !Truthy(body.problem_id) then
      SessionOutcome(Reply(400, ErrorBody(MissingProblemMessage)), None, None)
    else if !owned then
      SessionOutcome(Reply(404, ErrorBody(ProblemNotFoundMessage)), body.problem_id, None)
    else
      var row := SessionInsert(userId, body.problem_id.value,
        body.affirmations_practiced.GetOr(JArr([])), body.duration_minutes.GetOr(JNum(0)),
        body.mood_before, body.mood_after, body.notes);
      var reply := match inserted
        case Failure(message) => Reply(400, ErrorBody(message))
        case Success(session) => Reply(201, Payload(session));
      SessionOutcome(reply, body.problem_id, Some(row))
  }

  // ---------------------------------------------------------------------
  // Statistics

  /** A fetched session: nullable integer columns and the ISO timestamp. */
  datatype SessionRow = SessionRow(
    duration_minutes: Option<int>, mood_before: Option<int>, mood_after: Option<int>, completed_at: string)

  /** `x || 0` on a nullable integer. */
  function OrZero(x: Option<int>): int {
    x.GetOr(0)
  }

  function Minutes(row: SessionRow): int { OrZero(row.duration_minutes) }
  function MoodBefore(row: SessionRow): int { OrZero(row.mood_before) }
  function MoodAfter(row: SessionRow): int { OrZero(row.mood_after) }

  /** `rows.reduce((sum, row) => sum + f(row), 0)`. */
  function SumOf(rows: seq<SessionRow>, f: SessionRow -> int): int {
    if rows == [] then 0 else SumOf(rows[..|rows| - 1], f) + f(rows[|rows| - 1])
  }

  function TotalMinutes(rows: seq<SessionRow>): int { SumOf(rows, Minutes) }

  /** `avg` is the mean of `n` values adding up to `total`, or 0 for no
      values. */
  predicate MeanOf(avg: real, total: int, n: nat) {
    if n == 0 then avg == 0.0 else avg * n as real == total as real
  }

  /** `n > 0 ? total / n : 0`. */
  function Average(total: int, n: nat): (r: real)
    ensures MeanOf(r, total, n)
  {
    if n > 0 then total as real / n as real else 0.0
  }

  /** `new Date(ts).toISOString().split('T')[0]`, with the timestamp taken
      as already in ISO form: the part before the first `T`. */
  function DateKey(ts: string): (r: string)
    ensures 'T' !in r
    ensures |r| <= |ts| && r == ts[..|r|]
    ensures |r| < |ts| ==> ts[|r|] == 'T'
  {
    match FirstIndex(ts, 'T')
    case None => ts
    case Some(k) => ts[..k]
  }

  function KeyOf(row: SessionRow): string { DateKey(row.completed_at) }

  /** One day's accumulator `{ count, totalMinutes }`. */
  datatype Bucket = Bucket(count: nat, totalMinutes: int)

  /** The dictionary `sessionsByDate`: its buckets, and its keys in insertion
      order, the order `Object.entries` lists them in. */
  datatype Grouping = Grouping(buckets: map<string, Bucket>, order: seq<string>)

  /** One iteration of the `forEach` body. */
  function AddRecord(g: Grouping, row: SessionRow): Grouping {
    var date := KeyOf(row);
    var g1 := if date in g.buckets then g else Grouping(g.buckets[date := Bucket(0, 0)], g.order + [date]);
    var b := g1.buckets[date];
    Grouping(g1.buckets[date := Bucket(b.count + 1, b.totalMinutes + Minutes(row))], g1.order)
  }

  /** The dictionary after the `forEach` over `rows`. */
  function Group(rows: seq<SessionRow>): Grouping {
    if rows == [] then Grouping(map[], []) else AddRecord(Group(rows[..|rows| - 1]), rows[|rows| - 1])
  }

  /** Reference definitions: the number of rows on day `d`, their minutes,
      and the set of days present. */
  function CountFor(rows: seq<SessionRow>, d: string): nat {
    if rows == [] then 0
    else CountFor(rows[..|rows| - 1], d) + (if KeyOf(rows[|rows| - 1]) == d then 1 else 0)
  }

  function MinutesFor(rows: seq<SessionRow>, d: string): int {
    if rows == [] then 0
    else MinutesFor(rows[..|rows| - 1], d) + (if KeyOf(rows[|rows| - 1]) == d then Minutes(rows[|rows| - 1]) else 0)
  }

  function DateKeys(rows: seq<SessionRow>): set<string> {
    set k | 0 <= k < |rows| :: KeyOf(rows[k])
  }

  /** A day with no session has nothing counted. */
  lemma {:induction false} AbsentDayCountsNothing(rows: seq<SessionRow>, d: string)
    requires d !in DateKeys(rows)
    ensures CountFor(rows, d) == 0 && MinutesFor(rows, d) == 0
  {
    if rows != [] {
      var init := rows[..|rows| - 1];
      assert KeyOf(rows[|rows| - 1]) in DateKeys(rows);
      forall k | 0 <= k < |init| ensures KeyOf(init[k]) != d {
        assert init[k] == rows[k];
      }
      AbsentDayCountsNothing(init, d);
    }
  }

  ghost predicate NoDup(s: seq<string>) {
    forall i, j :: 0 <= i < j < |s| ==> s[i] != s[j]
  }

  /** The dictionary's keys in insertion order, each once. */
  ghost predicate WellFormed(g: Grouping) {
    && NoDup(g.order)
    && (forall d :: d in g.order <==> d in g.buckets)
  }

  /** Each record increments exactly one bucket, the one of its own day:
      that bucket's count by one and its minutes by the record's minutes
      (starting from zero for a new day); every other bucket is unchanged. */
  lemma AddRecordTouchesOneBucket(g: Grouping, row: SessionRow)
    requires WellFormed(g)
    ensures var g' := AddRecord(g, row); var d := KeyOf(row);
      && WellFormed(g')
      && g'.buckets.Keys == g.buckets.Keys + {d}
      && g'.buckets[d].count == (if d in g.buckets then g.buckets[d].count else 0) + 1
      && g'.buckets[d].totalMinutes == (if d in g.buckets then g.buckets[d].totalMinutes else 0) + Minutes(row)
      && (forall e :: e in g.buckets && e != d ==> g'.buckets[e] == g.buckets[e])
      && g'.order == (if d in g.buckets then g.order else g.order + [d])
  {
  }

  /** After the loop, the dictionary holds one bucket per day present, with
      exactly that day's number of sessions and minutes. */
  lemma {:induction false} GroupMeaning(rows: seq<SessionRow>)
    ensures WellFormed(Group(rows))
    ensures Group(rows).buckets.Keys == DateKeys(rows)
    ensures forall d :: d in Group(rows).buckets ==>
      Group(rows).buckets[d] == Bucket(CountFor(rows, d), MinutesFor(rows, d))
  {
    if rows != [] {
      var init, last := rows[..|rows| - 1], rows[|rows| - 1];
      GroupMeaning(init);
      AddRecordTouchesOneBucket(Group(init), last);
      if KeyOf(last) !in Group(init).buckets {
        AbsentDayCountsNothing(init, KeyOf(last));
      }
      DateKeysSnoc(rows);
    }
  }

  /** The days of a list of rows are those of all but the last, plus the
      last one's. */
  lemma DateKeysSnoc(rows: seq<SessionRow>)
    requires rows != []
    ensures DateKeys(rows) == DateKeys(rows[..|rows| - 1]) + {KeyOf(rows[|rows| - 1])}
  {
    var init := rows[..|rows| - 1];
    forall d | d in DateKeys(rows) ensures d in DateKeys(init) + {KeyOf(rows[|rows| - 1])} {
      var k :| 0 <= k < |rows| && KeyOf(rows[k]) == d;
      if k < |rows| - 1 { assert init[k] == rows[k]; }
    }
    forall d | d in DateKeys(init) ensures d in DateKeys(rows) {
      var k :| 0 <= k < |init| && KeyOf(init[k]) == d;
      assert rows[k] == init[k];
    }
  }

  /** A row of `chartData`. */
  datatype ChartEntry = ChartEntry(date: string, sessions: nat, minutes: int)

  /** `Object.entries(sessionsByDate).map(...)`, in insertion order. */
  function Entries(order: seq<string>, buckets: map<string, Bucket>): (r: seq<ChartEntry>)
    requires forall d :: d in order ==> d in buckets
    ensures |r| == |order|
    ensures forall i :: 0 <= i < |order| ==>
      r[i] == ChartEntry(order[i], buckets[order[i]].count, buckets[order[i]].totalMinutes)
  {
    if order == [] then []
    else [ChartEntry(order[0], buckets[order[0]].count, buckets[order[0]].totalMinutes)] + Entries(order[1..], buckets)
  }

  function SumSessions(es: seq<ChartEntry>): nat {
    if es == [] then 0 else es[0].sessions + SumSessions(es[1..])
  }

  function SumMinutes(es: seq<ChartEntry>): int {
    if es == [] then 0 else es[0].minutes + SumMinutes(es[1..])
  }

  lemma {:induction false} SumsAppend(x: seq<ChartEntry>, y: seq<ChartEntry>)
    ensures SumSessions(x + y) == SumSessions(x) + SumSessions(y)
    ensures SumMinutes(x + y) == SumMinutes(x) + SumMinutes(y)
  {
    if x == [] {
      assert x + y == y;
    } else {
      assert (x + y)[1..] == x[1..] + y;
      SumsAppend(x[1..], y);
    }
  }

  /** Updating the bucket of a day not listed leaves the entries alone. */
  lemma {:induction false} EntriesUnaffected(order: seq<string>, buckets: map<string, Bucket>, d: string, b: Bucket)
    requires forall e :: e in order ==> e in buckets
    requires d !in order
    ensures Entries(order, buckets[d := b]) == Entries(order, buckets)
  {
  }

  /** Updating the bucket of a day listed once changes the sums by exactly
      that bucket's change. */
  lemma {:induction false} EntriesBump(order: seq<string>, buckets: map<string, Bucket>, d: string, b: Bucket)
    requires forall e :: e in order ==> e in buckets
    requires NoDup(order) && d in order
    ensures SumSessions(Entries(order, buckets[d := b])) + buckets[d].count
         == SumSessions(Entries(order, buckets)) + b.count
    ensures SumMinutes(Entries(order, buckets[d := b])) + buckets[d].totalMinutes
         == SumMinutes(Entries(order, buckets)) + b.totalMinutes
  {
    var b' := buckets[d := b];
    var x, y := Entries(order, b'), Entries(order, buckets);
    assert x[1..] == Entries(order[1..], b') && y[1..] == Entries(order[1..], buckets);
    if order[0] == d {
      assert d !in order[1..];
      EntriesUnaffected(order[1..], buckets, d, b);
    } else {
      assert d in order[1..];
      EntriesBump(order[1..], buckets, d, b);
    }
  }

  /** A record of a new day appends that day's entry to the sums. */
  lemma AddRecordNewDay(g: Grouping, row: SessionRow)
    requires WellFormed(g) && KeyOf(row) !in g.buckets
    ensures Entries(AddRecord(g, row).order, AddRecord(g, row).buckets)
         == Entries(g.order, g.buckets) + [ChartEntry(KeyOf(row), 1, Minutes(row))]
  {
    var d := KeyOf(row);
    AddRecordTouchesOneBucket(g, row);
    var g' := AddRecord(g, row);
    assert g'.buckets == g.buckets[d := g'.buckets[d]];
    EntriesUnaffected(g.order, g.buckets, d, g'.buckets[d]);
    EntriesAppend(g.order, g'.buckets, d);
  }

  lemma EntriesAppend(order: seq<string>, buckets: map<string, Bucket>, d: string)
    requires forall e :: e in order ==> e in buckets
    requires d in buckets
    ensures Entries(order + [d], buckets)
         == Entries(order, buckets) + [ChartEntry(d, buckets[d].count, buckets[d].totalMinutes)]
  {
    var x := Entries(order + [d], buckets);
    var y := Entries(order, buckets) + [ChartEntry(d, buckets[d].count, buckets[d].totalMinutes)];
    forall i | 0 <= i < |x| ensures x[i] == y[i] {
      if i < |order| { assert (order + [d])[i] == order[i]; }
    }
  }

  /** One record adds one session and its minutes to the per-day sums. */
  lemma AddRecordConserves(g: Grouping, row: SessionRow)
    requires WellFormed(g)
    ensures WellFormed(AddRecord(g, row))
    ensures SumSessions(Entries(AddRecord(g, row).order, AddRecord(g, row).buckets))
         == SumSessions(Entries(g.order, g.buckets)) + 1
    ensures SumMinutes(Entries(AddRecord(g, row).order, AddRecord(g, row).buckets))
         == SumMinutes(Entries(g.order, g.buckets)) + Minutes(row)
  {
    var d := KeyOf(row);
    AddRecordTouchesOneBucket(g, row);
    var g' := AddRecord(g, row);
    if d in g.buckets {
      assert g'.order == g.order && g'.buckets == g.buckets[d := g'.buckets[d]];
      EntriesBump(g.order, g.buckets, d, g'.buckets[d]);
    } else {
      AddRecordNewDay(g, row);
      SumsAppend(Entries(g.order, g.buckets), [ChartEntry(d, 1, Minutes(row))]);
    }
  }

  /** Conservation: the per-day session counts add up to the number of
      sessions, and the per-day minutes to the total minutes. */
  lemma {:induction false} GroupConserves(rows: seq<SessionRow>)
    ensures WellFormed(Group(rows))
    ensures SumSessions(Entries(Group(rows).order, Group(rows).buckets)) == |rows|
    ensures SumMinutes(Entries(Group(rows).order, Group(rows).buckets)) == TotalMinutes(rows)
  {
    if rows != [] {
      var init, last := rows[..|rows| - 1], rows[|rows| - 1];
      GroupConserves(init);
      AddRecordConserves(Group(init), last);
    }
  }

  /** The grouping loop of `getSessionStats`: `sessionsByDate` updated in
      place, one record at a time. */
  method GroupByDate(rows: seq<SessionRow>) returns (buckets: map<string, Bucket>, order: seq<string>)
    ensures Grouping(buckets, order) == Group(rows)
    ensures buckets.Keys == DateKeys(rows)
    ensures forall d :: d in buckets ==> buckets[d] == Bucket(CountFor(rows, d), MinutesFor(rows, d))
    ensures NoDup(order) && forall d :: d in order <==> d in buckets
  {
    buckets, order := map[], [];
    for i := 0 to |rows|
      invariant Grouping(buckets, order) == Group(rows[..i])
    {
      var date := KeyOf(rows[i]);
      if date !in buckets {
        buckets := buckets[date := Bucket(0, 0)];
        order := order + [date];
      }
      buckets := buckets[date := buckets[date].(count := buckets[date].count + 1)];
      buckets := buckets[date := buckets[date].(totalMinutes := buckets[date].totalMinutes + Minutes(rows[i]))];
      assert rows[..i + 1][..i] == rows[..i];
    }
    assert rows[..|rows|] == rows;
    GroupMeaning(rows);
  }

  // ---------------------------------------------------------------------
  // Sorting the chart data by date

  /** Every entry's day sorts strictly after the previous ones. */
  ghost predicate StrictlyAscending(es: seq<ChartEntry>) {
    forall i, j :: 0 <= i < j < |es| ==> LexLess(es[i].date, es[j].date)
  }

  ghost predicate DistinctDates(es: seq<ChartEntry>) {
    forall i, j :: 0 <= i < j < |es| ==> es[i].date != es[j].date
  }

  function Dates(es: seq<ChartEntry>): set<string> {
    set e | e in es :: e.date
  }

  /** An entry of an earlier day in front of strictly ascending entries
      keeps them strictly ascending. */
  lemma ConsAscending(x: ChartEntry, rest: seq<ChartEntry>)
    requires StrictlyAscending(rest)
    requires forall y :: y in rest ==> LexLess(x.date, y.date)
    ensures StrictlyAscending([x] + rest)
  {
    var r := [x] + rest;
    forall i, j | 0 <= i < j < |r| ensures LexLess(r[i].date, r[j].date) {
      assert r[j] == rest[j - 1];
      if i > 0 { assert r[i] == rest[i - 1]; }
    }
  }

  /** Places `e` among strictly ascending entries of other days. */
  function InsertByDate(e: ChartEntry, s: seq<ChartEntry>): (r: seq<ChartEntry>)
    requires StrictlyAscending(s)
    requires forall x :: x in s ==> x.date != e.date
    ensures |r| == |s| + 1
    ensures forall x :: x in r <==> x == e || x in s
    ensures StrictlyAscending(r)
    ensures SumSessions(r) == SumSessions(s) + e.sessions
    ensures SumMinutes(r) == SumMinutes(s) + e.minutes
  {
    if s == [] then [e]
    else if LexLess(e.date, s[0].date) then
      InsertFront(e, s);
      [e] + s
    else
      LexLessTotal(e.date, s[0].date);
      var rest := InsertByDate(e, s[1..]);
      HeadBeforeRest(e, s, rest);
      ConsAscending(s[0], rest);
      assert ([s[0]] + rest)[1..] == rest;
      [s[0]] + rest
  }

  lemma InsertFront(e: ChartEntry, s: seq<ChartEntry>)
    requires StrictlyAscending(s) && s != [] && LexLess(e.date, s[0].date)
    ensures StrictlyAscending([e] + s)
    ensures ([e] + s)[1..] == s
  {
    forall y | y in s ensures LexLess(e.date, y.date) {
      var k :| 0 <= k < |s| && s[k] == y;
      if k > 0 { LexLessTransitive(e.date, s[0].date, y.date); }
    }
    ConsAscending(e, s);
  }

  lemma HeadBeforeRest(e: ChartEntry, s: seq<ChartEntry>, rest: seq<ChartEntry>)
    requires StrictlyAscending(s) && s != [] && LexLess(s[0].date, e.date)
    requires forall x :: x in rest <==> x == e || x in s[1..]
    ensures forall y :: y in rest ==> LexLess(s[0].date, y.date)
  {
    forall y | y in rest ensures LexLess(s[0].date, y.date) {
      if y != e {
        var k :| 0 <= k < |s[1..]| && s[1..][k] == y;
        assert s[k + 1] == y;
      }
    }
  }

  /** `chartData.sort(...)` by date, for entries of distinct days. */
  function SortByDate(s: seq<ChartEntry>): (r: seq<ChartEntry>)
    requires DistinctDates(s)
    ensures |r| == |s|
    ensures forall x :: x in r <==> x in s
    ensures StrictlyAscending(r)
    ensures SumSessions(r) == SumSessions(s)
    ensures SumMinutes(r) == SumMinutes(s)
  {
    if s == [] then []
    else
      var tail := SortByDate(s[1..]);
      assert forall x :: x in tail ==> x.date != s[0].date by {
        forall x | x in tail ensures x.date != s[0].date {
          var k :| 0 <= k < |s[1..]| && s[1..][k] == x;
          assert s[k + 1] == x;
        }
      }
      InsertByDate(s[0], tail)
  }

  /** Strictly ascending entries are determined by which entries they hold:
      any sort by date yields the same chart data as `SortByDate`. */
  lemma {:induction false} AscendingIsUnique(a: seq<ChartEntry>, b: seq<ChartEntry>)
    requires StrictlyAscending(a) && StrictlyAscending(b)
    requires forall x :: x in a <==> x in b
    ensures a == b
  {
    assert a != [] ==> a[0] in b;
    assert b != [] ==> b[0] in a;
    if a != [] && b != [] {
      var i :| 0 <= i < |b| && b[i] == a[0];
      var j :| 0 <= j < |a| && a[j] == b[0];
      if i != 0 && j != 0 {
        LexLessTransitive(a[0].date, b[0].date, a[0].date);
        LexLessIrreflexive(a[0].date);
      } else if i != 0 {
        LexLessIrreflexive(b[0].date);
      } else if j != 0 {
        LexLessIrreflexive(a[0].date);
      }
      assert a[0] == b[0];
      forall x ensures x in a[1..] <==> x in b[1..] {
        if x in a[1..] {
          var k :| 0 <= k < |a[1..]| && a[1..][k] == x;
          assert a[k + 1] == x;
          LexLessIrreflexive(x.date);
          assert x in b;
        }
        if x in b[1..] {
          var k :| 0 <= k < |b[1..]| && b[1..][k] == x;
          assert b[k + 1] == x;
          LexLessIrreflexive(x.date);
          assert x in a;
        }
      }
      AscendingIsUnique(a[1..], b[1..]);
      assert a == [a[0]] + a[1..] && b == [b[0]] + b[1..];
    }
  }

  // ---------------------------------------------------------------------
  // getSessionStats

  /** The unsorted chart entries list each day of the dictionary once, with
      its bucket's count and minutes. */
  lemma EntriesListBuckets(order: seq<string>, buckets: map<string, Bucket>)
    requires NoDup(order) && forall d :: d in order <==> d in buckets
    ensures DistinctDates(Entries(order, buckets))
    ensures Dates(Entries(order, buckets)) == buckets.Keys
    ensures forall e :: e in Entries(order, buckets) ==>
      e.date in buckets && e.sessions == buckets[e.date].count && e.minutes == buckets[e.date].totalMinutes
  {
    var es := Entries(order, buckets);
    forall i, j | 0 <= i < j < |es| ensures es[i].date != es[j].date {
      assert es[i].date == order[i] && es[j].date == order[j];
    }
    forall e | e in es
      ensures e.date in buckets && e.sessions == buckets[e.date].count && e.minutes == buckets[e.date].totalMinutes
    {
      var k :| 0 <= k < |es| && es[k] == e;
      assert e.date == order[k];
    }
    forall d | d in buckets ensures d in Dates(es) {
      var k :| 0 <= k < |order| && order[k] == d;
      assert es[k] in es && es[k].date == d;
    }
  }

  /** The statistics reply, before the rounding of the means to one decimal
      place. */
  datatype StatsReport = StatsReport(
    totalSessions: nat, totalMinutes: int, avgMoodBefore: real, avgMoodAfter: real,
    chartData: seq<ChartEntry>)

  /** The aggregation of `getSessionStats` over the fetched rows. */
  method SessionStats(rows: seq<SessionRow>) returns (r: StatsReport)
    ensures r.totalSessions == |rows|
    ensures r.totalMinutes == TotalMinutes(rows)
    ensures MeanOf(r.avgMoodBefore, SumOf(rows, MoodBefore), |rows|)
    ensures MeanOf(r.avgMoodAfter, SumOf(rows, MoodAfter), |rows|)
    ensures StrictlyAscending(r.chartData)
    ensures Dates(r.chartData) == DateKeys(rows)
    ensures forall e :: e in r.chartData ==>
      e.sessions == CountFor(rows, e.date) && e.minutes == MinutesFor(rows, e.date)
    ensures SumSessions(r.chartData) == r.totalSessions
    ensures SumMinutes(r.chartData) == r.totalMinutes
  {
    var totalSessions := |rows|;
    var totalMinutes := TotalMinutes(rows);
    var avgMoodBefore := Average(SumOf(rows, MoodBefore), |rows|);
    var avgMoodAfter := Average(SumOf(rows, MoodAfter), |rows|);
    assert MeanOf(avgMoodBefore, SumOf(rows, MoodBefore), |rows|);
    assert MeanOf(avgMoodAfter, SumOf(rows, MoodAfter), |rows|);
    var buckets, order := GroupByDate(rows);
    var entries := Entries(order, buckets);
    EntriesListBuckets(order, buckets);
    GroupConserves(rows);
    var chartData := SortByDate(entries);
    r := StatsReport(totalSessions, totalMinutes, avgMoodBefore, avgMoodAfter, chartData);
  }

  /** `SessionController.getSessionStats`, with `fetched` the store's answer
      to the query for the user's recent sessions. */
  method GetSessionStats(fetched: Result<seq<SessionRow>, string>) returns (reply: Reply<StatsReport>)
    ensures fetched.Failure? ==> reply == Reply(400, ErrorBody(fetched.error))
    ensures fetched.Success? ==>
      && reply.status == 200 && reply.body.Payload?
      && reply.body.value.totalSessions == |fetched.value|
      && reply.body.value.totalMinutes == TotalMinutes(fetched.value)
      && MeanOf(reply.body.value.avgMoodBefore, SumOf(fetched.value, MoodBefore), |fetched.value|)
      && MeanOf(reply.body.value.avgMoodAfter, SumOf(fetched.value, MoodAfter), |fetched.value|)
      && StrictlyAscending(reply.body.value.chartData)
      && Dates(reply.body.value.chartData) == DateKeys(fetched.value)
      && (forall e :: e in reply.body.value.chartData ==>
            e.sessions == CountFor(fetched.value, e.date) && e.minutes == MinutesFor(fetched.value, e.date))
      && SumSessions(reply.body.value.chartData) == |fetched.value|
      && SumMinutes(reply.body.value.chartData) == TotalMinutes(fetched.value)
  {
    match fetched
    case Failure(message) =>
      reply := Reply(400, ErrorBody(message));
    case Success(rows) =>
      var report := SessionStats(rows);
      reply := Reply(200, Payload(report));
  }
}
