/** The contact and course-request forms, and the admin dashboard report: the
    latest twelve stats periods, padded to a fixed series, with the
    period-over-period change of each metric. */
module OtherController {
  import opened Domain
  import Database

  // ---------------------------------------------------------------------------
  // Contact and course-request forms

  /** An e-mail handed to the mailer. */
  datatype Mail = Mail(to: string, subject: string, text: string)

  /** The two public forms: `contact` carries a message, `courseRequest` the
      requested course. */
  datatype Form = ContactForm | CourseRequestForm

  function Subject(form: Form): string
  {
    match form
    case ContactForm => "Contact from Course Bundler"
    case CourseRequestForm => "Request for a course on Course Bundler"
  }

  /** `contact` and `courseRequest`: name, email and the form's third field are
      all mandatory (400, nothing sent); otherwise the site's mailbox is sent
      one message with the form's subject, naming the sender. Whether the mailer
      delivered it is the input `delivered`; when it throws, the handler fails. */
  function FormMail(form: Form, name: Option<string>, email: Option<string>, detail: Option<string>,
                    mailbox: string, delivered: bool): (r: Result<Mail>)
    ensures r.Ok? <==> Present(name) && Present(email) && Present(detail) && delivered
    ensures !Present(name) || !Present(email) || !Present(detail) ==> r == Err(Http(400))
    ensures Present(name) && Present(email) && Present(detail) && !delivered ==> r == Err(Upstream)
    ensures r.Ok? ==> r.value.to == mailbox && r.value.subject == Subject(form)
    ensures r.Ok? ==> r.value.text == "Hello \nI am " + name.value + " \nMy Email is " + email.value + " \n" + detail.value
  {
    if !Present(name) || !Present(email) || !Present(detail) then Err(Http(400))
    else if !delivered then Err(Upstream)
    else Ok(Mail(mailbox, Subject(form),
                 "Hello \nI am " + name.value + " \nMy Email is " + email.value + " \n" + detail.value))
  }

  // ---------------------------------------------------------------------------
  // Dashboard report

  const SERIES_LENGTH := 12

  /** A period-over-period percentage: a rational value, or the quotient of a
      division by zero, which the runtime makes an infinity or NaN whose sign
      is that of the numerator. */
  datatype Pct = Finite(value: real) | DivByZero(numerator: int)

  /** The `< 0` test on a percentage. */
  predicate Negative(p: Pct)
  {
    match p
    case Finite(v) => v < 0.0
    case DivByZero(n) => n < 0
  }

  /** `difference / base * 100`. */
  function Change(difference: int, base: nat): (p: Pct)
    ensures base == 0 <==> p.DivByZero?
    ensures base != 0 ==> p.value * base as real == difference as real * 100.0
    ensures Negative(p) <==> difference < 0
  {
    if base == 0 then DivByZero(difference) else Finite(difference as real / base as real * 100.0)
  }

  datatype Report = Report(
    series: seq<Stats>,
    usersCount: nat, subscriptionsCount: nat, viewsCount: nat,
    usersPercentage: Pct, subscriptionsPercentage: Pct, viewsPercentage: Pct,
    usersProfit: bool, subscriptionsProfit: bool, viewsProfit: bool)

  /** The sequence in the opposite order. */
  function Reversed(s: seq<Stats>): (r: seq<Stats>)
    ensures |r| == |s|
    ensures forall k :: 0 <= k < |s| ==> r[k] == s[|s| - 1 - k]
  {
    seq(|s|, k requires 0 <= k < |s| => s[|s| - 1 - k])
  }

  /** `n` zero-valued periods. */
  function Zeros(n: nat): (z: seq<Stats>)
    ensures |z| == n
    ensures forall k :: 0 <= k < n ==> z[k] == ZERO_STATS
  {
    seq(n, _ => ZERO_STATS)
  }

  /** How many zero periods precede `fetched` entries in the series. */
  function PadCount(fetched: nat): nat
  {
    if fetched < SERIES_LENGTH then SERIES_LENGTH - fetched else 0
  }

  /** The reported series: the fetched newest-first periods put oldest-first,
      after enough zero periods to make twelve. */
  function Series(fetched: seq<Stats>): (r: seq<Stats>)
    ensures |r| == PadCount(|fetched|) + |fetched|
    ensures forall k :: 0 <= k < PadCount(|fetched|) ==> r[k] == ZERO_STATS
    ensures forall k :: PadCount(|fetched|) <= k < |r| ==> r[k] == fetched[|r| - 1 - k]
  {
    Zeros(PadCount(|fetched|)) + Reversed(fetched)
  }

  /** The three percentages and flags, as the handler's branches set them:
      the zero-baseline test is made per metric, but the `else` belongs to
      the subscriptions test alone, so a non-zero subscriptions baseline
      recomputes all three by division; the flags of that branch are set from
      the users, views and subscriptions percentages in that order, onto the
      users, subscriptions and views flags. */
  function Summarize(prev: Stats, curr: Stats): (r: Report)
    ensures r.usersCount == curr.users && r.subscriptionsCount == curr.subscriptions && r.viewsCount == curr.views
    ensures r.subscriptionsPercentage.Finite?
    ensures r.usersPercentage.DivByZero? <==> prev.subscriptions != 0 && prev.users == 0
    ensures r.viewsPercentage.DivByZero? <==> prev.subscriptions != 0 && prev.views == 0
    ensures prev.subscriptions == 0 ==> r.usersProfit && r.subscriptionsProfit && r.viewsProfit
    ensures prev.subscriptions != 0 ==>
      && (r.usersProfit <==> curr.users >= prev.users)
      && (r.subscriptionsProfit <==> curr.views >= prev.views)
      && (r.viewsProfit <==> curr.subscriptions >= prev.subscriptions)
  {
    if prev.subscriptions == 0 then
      Report([], curr.users, curr.subscriptions, curr.views,
             if prev.users == 0 then Finite((curr.users * 100) as real) else Finite(0.0),
             Finite((curr.subscriptions * 100) as real),
             if prev.views == 0 then Finite((curr.views * 100) as real) else Finite(0.0),
             true, true, true)
    else
      var users := Change(curr.users - prev.users, prev.users);
      var subscriptions := Change(curr.subscriptions - prev.subscriptions, prev.subscriptions);
      var views := Change(curr.views - prev.views, prev.views);
      Report([], curr.users, curr.subscriptions, curr.views, users, subscriptions, views,
             !Negative(users), !Negative(views), !Negative(subscriptions))
  }

  /** `getDashboardStats` over the periods the query returned (newest first,
      at most twelve of them), built as the handler builds it: one `unshift`
      per fetched period, one per padding period, then the branches over the
      two latest entries. */
  method BuildDashboard(fetched: seq<Stats>) returns (r: Report)
    ensures r.series == Series(fetched)
    ensures |r.series| >= SERIES_LENGTH
    ensures r == Summarize(r.series[10], r.series[11]).(series := r.series)
  {
    var statsData: seq<Stats> := [];
    var i := 0;
    while i < |fetched|
      invariant 0 <= i <= |fetched|
      invariant statsData == Reversed(fetched[..i])
    {
      assert [fetched[i]] + Reversed(fetched[..i]) == Reversed(fetched[..i + 1]);
      statsData := [fetched[i]] + statsData;
      i := i + 1;
    }
    assert fetched[..|fetched|] == fetched;
    var requiredSize := SERIES_LENGTH - |fetched|;
    i := 0;
    while i < requiredSize
      invariant 0 <= i <= PadCount(|fetched|)
      invariant requiredSize > 0 ==> i <= requiredSize
      invariant statsData == Zeros(i) + Reversed(fetched)
    {
      assert [ZERO_STATS] + Zeros(i) == Zeros(i + 1);
      statsData := [ZERO_STATS] + statsData;
      i := i + 1;
    }
    assert i == PadCount(|fetched|);
    assert statsData == Series(fetched);

    var prev, curr := statsData[10], statsData[11];
    var usersCount, subscriptionsCount, viewsCount := curr.users, curr.subscriptions, curr.views;
    var usersProfit, subscriptionsProfit, viewsProfit := true, true, true;
    var usersPercentage, viewsPercentage, subscriptionsPercentage := Finite(0.0), Finite(0.0), Finite(0.0);

    if prev.users == 0 { usersPercentage := Finite((usersCount * 100) as real); }
    if prev.views == 0 { viewsPercentage := Finite((viewsCount * 100) as real); }
    if prev.subscriptions == 0 {
      subscriptionsPercentage := Finite((subscriptionsCount * 100) as real);
    } else {
      var usersDifference := curr.users - prev.users;
      var viewsDifference := curr.views - prev.views;
      var subscriptionsDifference := curr.subscriptions - prev.subscriptions;
      usersPercentage := Change(usersDifference, prev.users);
      viewsPercentage := Change(viewsDifference, prev.views);
      subscriptionsPercentage := Change(subscriptionsDifference, prev.subscriptions);

      if Negative(usersPercentage) { usersProfit := false; }
      if Negative(viewsPercentage) { subscriptionsProfit := false; }
      if Negative(subscriptionsPercentage) { viewsProfit := false; }
    }

    r := Report(statsData, usersCount, subscriptionsCount, viewsCount,
                usersPercentage, subscriptionsPercentage, viewsPercentage,
                usersProfit, subscriptionsProfit, viewsProfit);
  }

  /** The query of the handler: the `n` latest periods of the stats table,
      newest first. */
  function Newest(table: seq<Stats>, n: nat): (r: seq<Stats>)
    ensures |r| == if |table| < n then |table| else n
    ensures forall k :: 0 <= k < |r| ==> r[k] == table[|table| - 1 - k]
  {
    var from := if |table| < n then 0 else |table| - n;
    Reversed(table[from..])
  }

  /** `getDashboardStats` against the stats table. */
  method GetDashboardStats(db: Database.Store) returns (r: Report)
    ensures r.series == Series(Newest(db.stats, SERIES_LENGTH))
    ensures r == Summarize(r.series[10], r.series[11]).(series := r.series)
  {
    var fetched := Newest(db.stats, SERIES_LENGTH);
    r := BuildDashboard(fetched);
  }

  // ---------------------------------------------------------------------------
  // Properties of the series

  /** At most twelve fetched periods always give exactly twelve entries. */
  lemma SeriesLength(fetched: seq<Stats>)
    requires |fetched| <= SERIES_LENGTH
    ensures |Series(fetched)| == SERIES_LENGTH
  {

  }

  /** Each entry before the fetched ones is a zero period. */
  lemma SeriesPadding(fetched: seq<Stats>, k: nat)
    requires k < PadCount(|fetched|)
    ensures Series(fetched)[k] == ZERO_STATS
    ensures Series(fetched)[k].users == 0 && Series(fetched)[k].subscriptions == 0 && Series(fetched)[k].views == 0
  {

  }

  /** After the padding the fetched periods follow in reverse fetch order,
      i.e. oldest first. */
  lemma SeriesOrder(fetched: seq<Stats>, j: nat)
    requires j < |fetched|
    ensures Series(fetched)[PadCount(|fetched|) + j] == fetched[|fetched| - 1 - j]
  {

  }

  /** With at most twelve periods fetched, the reported counts are those of the
      newest fetched period, and zero when nothing was fetched. */
  lemma CountsAreLatest(fetched: seq<Stats>)
    requires |fetched| <= SERIES_LENGTH
    ensures |Series(fetched)| == SERIES_LENGTH
    ensures fetched != [] ==> Series(fetched)[11] == fetched[0]
    ensures |fetched| >= 2 ==> Series(fetched)[10] == fetched[1]
    ensures fetched == [] ==> Series(fetched)[11] == ZERO_STATS && Series(fetched)[10] == ZERO_STATS
    ensures |fetched| == 1 ==> Series(fetched)[10] == ZERO_STATS
  {

  }

  /** On the stats table: the dashboard's latest entry is the table's last
      period and the one before it the period before that. */
  lemma DashboardShowsLatestPeriods(table: seq<Stats>)
    requires table != []
    ensures Series(Newest(table, SERIES_LENGTH))[11] == table[|table| - 1]
    ensures |table| >= 2 ==> Series(Newest(table, SERIES_LENGTH))[10] == table[|table| - 2]
  {

  }

  // ---------------------------------------------------------------------------
  // Properties of the percentages and flags

  /** A zero subscriptions baseline: subscriptions report `count * 100`; users
      and views report `count * 100` over a zero baseline and keep 0 otherwise;
      every flag stays true. */
  lemma ZeroSubscriptionBaseline(prev: Stats, curr: Stats)
    requires prev.subscriptions == 0
    ensures Summarize(prev, curr).subscriptionsPercentage == Finite((curr.subscriptions * 100) as real)
    ensures Summarize(prev, curr).usersPercentage == Finite(if prev.users == 0 then (curr.users * 100) as real else 0.0)
    ensures Summarize(prev, curr).viewsPercentage == Finite(if prev.views == 0 then (curr.views * 100) as real else 0.0)
    ensures Summarize(prev, curr).usersProfit && Summarize(prev, curr).subscriptionsProfit && Summarize(prev, curr).viewsProfit
  {
  }

  /** A non-zero subscriptions baseline: every percentage is the change over its
      baseline times 100, and each flag is false exactly when its source
      percentage is negative, with the views and subscriptions sources swapped. */
  lemma NonZeroSubscriptionBaseline(prev: Stats, curr: Stats)
    requires prev.subscriptions != 0
    ensures var r := Summarize(prev, curr);
      && r.subscriptionsPercentage.Finite?
      && r.subscriptionsPercentage.value * prev.subscriptions as real == (curr.subscriptions - prev.subscriptions) as real * 100.0
      && (prev.users != 0 ==>
            r.usersPercentage.Finite? &&
            r.usersPercentage.value * prev.users as real == (curr.users - prev.users) as real * 100.0)
      && (prev.views != 0 ==>
            r.viewsPercentage.Finite? &&
            r.viewsPercentage.value * prev.views as real == (curr.views - prev.views) as real * 100.0)
      && (prev.users == 0 <==> r.usersPercentage.DivByZero?)
      && (prev.views == 0 <==> r.viewsPercentage.DivByZero?)
      && (!r.usersProfit <==> Negative(r.usersPercentage))
      && (!r.subscriptionsProfit <==> Negative(r.viewsPercentage))
      && (!r.viewsProfit <==> Negative(r.subscriptionsPercentage))
  {
  }

  /** In the division branch a flag is false exactly when its source metric fell. */
  lemma FlagsFollowDeclines(prev: Stats, curr: Stats)
    requires prev.subscriptions != 0
    ensures !Summarize(prev, curr).usersProfit <==> curr.users < prev.users
    ensures !Summarize(prev, curr).subscriptionsProfit <==> curr.views < prev.views
    ensures !Summarize(prev, curr).viewsProfit <==> curr.subscriptions < prev.subscriptions
  {
  }

  /** Worked cases: growth from a zero baseline is `count * 100` and counts as
      profit; 10 to 5 is -50 and a loss; 10 to 20 is +100 and a profit. */
  lemma WorkedExamples()
    ensures Summarize(Stats(0, 0, 0, None), Stats(0, 5, 0, None)).subscriptionsPercentage == Finite(500.0)
    ensures Summarize(Stats(0, 0, 0, None), Stats(0, 5, 0, None)).subscriptionsProfit
    ensures Summarize(Stats(0, 0, 0, None), Stats(0, 0, 0, None)).subscriptionsProfit
    ensures Summarize(Stats(10, 10, 10, None), Stats(5, 5, 5, None)).subscriptionsPercentage == Finite(-50.0)
    ensures !Summarize(Stats(10, 10, 10, None), Stats(5, 5, 5, None)).viewsProfit
    ensures Summarize(Stats(10, 10, 10, None), Stats(20, 20, 20, None)).subscriptionsPercentage == Finite(100.0)
    ensures Summarize(Stats(10, 10, 10, None), Stats(20, 20, 20, None)).viewsProfit
  {

  }

  /** The `else` belongs to the subscriptions test alone: with no subscriptions
      in the previous period, a doubling of users reports 0 percent. */
  lemma UsersChangeIgnoredOnZeroSubscriptions()
    ensures Summarize(Stats(10, 0, 0, None), Stats(20, 0, 0, None)).usersPercentage == Finite(0.0)
  {
  }

  /** The flags are cross-wired: subscriptions doubling while views fall
      reports the subscriptions flag false and the views flag true. */
  lemma CrossWiredFlags()
    ensures !Summarize(Stats(10, 10, 10, None), Stats(10, 20, 5, None)).subscriptionsProfit
    ensures Summarize(Stats(10, 10, 10, None), Stats(10, 20, 5, None)).viewsProfit
  {
  }
}
