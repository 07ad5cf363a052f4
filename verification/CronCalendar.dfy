/** Compiling a five-field schedule to launchd calendar intervals keeps its meaning. */
module CronCalendar {
  import opened Common
  import opened CronFields

  /** A missing key stands for every value. */
  datatype Interval = Interval(month: Option<int>, day: Option<int>, weekday: Option<int>, hour: Option<int>, minute: Option<int>)

  datatype Moment = Moment(month: int, day: int, weekday: int, hour: int, minute: int)

  datatype Schedule = Schedule(minute: string, hour: string, day: string, month: string, weekday: string)

  datatype Compiled = Intervals(intervals: seq<Interval>) | Unsupported

  datatype Lists = Lists(minutes: seq<int>, hours: seq<int>, days: seq<int>, months: seq<int>, weekdays: seq<int>)

  const ANYTIME := Interval(None, None, None, None, None)

  const MAX_INTERVALS := 10_000

  // Meaning

  predicate KeyAgrees(key: Option<int>, v: int) {
    key.None? || key.value == v
  }

  /** The interval fires at this moment: all keys that it has agree. */
  predicate Fires(i: Interval, t: Moment) {
    && KeyAgrees(i.month, t.month) && KeyAgrees(i.day, t.day) && KeyAgrees(i.weekday, t.weekday)
    && KeyAgrees(i.hour, t.hour) && KeyAgrees(i.minute, t.minute)
  }

  /** All five fields match the moment; Sunday is 0. */
  ghost predicate Matches(s: Schedule, t: Moment) {
    && FieldMeans(s.minute, 0, 59, t.minute) && FieldMeans(s.hour, 0, 23, t.hour)
    && FieldMeans(s.day, 1, 31, t.day) && FieldMeans(s.month, 1, 12, t.month)
    && FieldMeans(s.weekday, 0, 7, t.weekday)
  }

  predicate FieldsValid(s: Schedule) {
    && FieldValid(s.minute, 0, 59) && FieldValid(s.hour, 0, 23) && FieldValid(s.day, 1, 31)
    && FieldValid(s.month, 1, 12) && FieldValid(s.weekday, 0, 7)
  }

  predicate Restricts(s: Schedule) {
    s.day != "*" && s.weekday != "*"
  }

  predicate IsMoment(t: Moment) {
    1 <= t.month <= 12 && 1 <= t.day <= 31 && 0 <= t.weekday <= 6 && 0 <= t.hour <= 23 && 0 <= t.minute <= 59
  }

  // The product, one field at a time

  datatype Slot = MonthKey | DayKey | WeekdayKey | HourKey | MinuteKey

  function Key(v: int): Option<int> {
    if v == -1 then None else Some(v)
  }

  function Get(i: Interval, k: Slot): Option<int> {
    match k
    case MonthKey => i.month
    case DayKey => i.day
    case WeekdayKey => i.weekday
    case HourKey => i.hour
    case MinuteKey => i.minute
  }

  function Put(i: Interval, k: Slot, v: int): Interval {
    match k
    case MonthKey => i.(month := Key(v))
    case DayKey => i.(day := Key(v))
    case WeekdayKey => i.(weekday := Key(v))
    case HourKey => i.(hour := Key(v))
    case MinuteKey => i.(minute := Key(v))
  }

  /** One interval for each value. */
  function Each(i: Interval, k: Slot, vs: seq<int>): (xs: seq<Interval>)
    ensures |xs| == |vs| && forall n | 0 <= n < |vs| :: xs[n] == Put(i, k, vs[n])
    decreases |vs|
  {
    if |vs| == 0 then [] else Each(i, k, vs[..|vs| - 1]) + [Put(i, k, vs[|vs| - 1])]
  }

  /** For each interval, one for each value. */
  function Times(xs: seq<Interval>, k: Slot, vs: seq<int>): seq<Interval>
    decreases |xs|
  {
    if |xs| == 0 then [] else Times(xs[..|xs| - 1], k, vs) + Each(xs[|xs| - 1], k, vs)
  }

  lemma Assoc(a: seq<Interval>, b: seq<Interval>, c: seq<Interval>)
    ensures (a + b) + c == a + (b + c)
  {
  }

  lemma {:induction false} TimesConcat(a: seq<Interval>, b: seq<Interval>, k: Slot, vs: seq<int>)
    ensures Times(a + b, k, vs) == Times(a, k, vs) + Times(b, k, vs)
    decreases |b|
  {
    if |b| == 0 {
      assert a + b == a;
    } else {
      var c := b[..|b| - 1];
      assert (a + b)[..|a + b| - 1] == a + c;
      TimesConcat(a, c, k, vs);
      Assoc(Times(a, k, vs), Times(c, k, vs), Each(b[|b| - 1], k, vs));
    }
  }

  lemma {:induction false} TimesCounts(xs: seq<Interval>, k: Slot, vs: seq<int>)
    ensures |Times(xs, k, vs)| == |xs| * |vs|
    decreases |xs|
  {
    if |xs| > 0 {
      TimesCounts(xs[..|xs| - 1], k, vs);
      assert |xs| * |vs| == (|xs| - 1) * |vs| + |vs|;
    }
  }

  /** What the product holds: every interval with every value. */
  lemma {:induction false} TimesHolds(xs: seq<Interval>, k: Slot, vs: seq<int>, i: Interval)
    ensures i in Times(xs, k, vs) <==> exists b, v | b in xs && v in vs :: i == Put(b, k, v)
    decreases |xs|
  {
    if |xs| > 0 {
      var before, last := xs[..|xs| - 1], xs[|xs| - 1];
      TimesHolds(before, k, vs, i);
      if i in Each(last, k, vs) {
        var n :| 0 <= n < |vs| && Each(last, k, vs)[n] == i;
        assert i == Put(last, k, vs[n]);
      }
      if b, v :| b in xs && v in vs && i == Put(b, k, v) && b !in before {
        assert b == last;
        var n :| 0 <= n < |vs| && vs[n] == v;
        assert Each(last, k, vs)[n] == i;
      }
    }
  }

  predicate Distinct(xs: seq<Interval>) {
    forall m, n | 0 <= m < n < |xs| :: xs[m] != xs[n]
  }

  predicate AllOpen(xs: seq<Interval>, k: Slot) {
    forall n | 0 <= n < |xs| :: Get(xs[n], k).None?
  }

  predicate Apart(vs: seq<int>) {
    forall m, n | 0 <= m < n < |vs| :: vs[m] != vs[n]
  }

  lemma PutKeepsApart(a: Interval, b: Interval, k: Slot, v: int, w: int)
    requires Get(a, k).None? && Get(b, k).None? && (a != b || v != w)
    ensures Put(a, k, v) != Put(b, k, w)
  {
  }

  lemma {:induction false} TimesDistinct(xs: seq<Interval>, k: Slot, vs: seq<int>)
    requires Distinct(xs) && AllOpen(xs, k) && Apart(vs)
    ensures Distinct(Times(xs, k, vs))
    decreases |xs|
  {
    if |xs| > 0 {
      var before, last := xs[..|xs| - 1], xs[|xs| - 1];
      TimesDistinct(before, k, vs);
      var a, b := Times(before, k, vs), Each(last, k, vs);
      forall m, n | 0 <= m < |a| && 0 <= n < |b|
        ensures a[m] != b[n]
      {
        TimesHolds(before, k, vs, a[m]);
        var c, v :| c in before && v in vs && a[m] == Put(c, k, v);
        PutKeepsApart(c, last, k, v, vs[n]);
      }
      forall m, n | 0 <= m < n < |b|
        ensures b[m] != b[n]
      {
        PutKeepsApart(last, last, k, vs[m], vs[n]);
      }
    }
  }

  lemma {:induction false} TimesOpen(xs: seq<Interval>, k: Slot, vs: seq<int>, other: Slot)
    requires AllOpen(xs, other) && k != other
    ensures AllOpen(Times(xs, k, vs), other)
    decreases |xs|
  {
    if |xs| > 0 {
      TimesOpen(xs[..|xs| - 1], k, vs, other);
    }
  }

  predicate ListAllows(vs: seq<int>, v: int) {
    vs == [-1] || v in vs
  }

  /** Some interval fires at this moment. */
  ghost predicate SomeAgrees(xs: seq<Interval>, t: Moment) {
    exists i :: i in xs && Fires(i, t)
  }

  function At(t: Moment, k: Slot): int {
    match k
    case MonthKey => t.month
    case DayKey => t.day
    case WeekdayKey => t.weekday
    case HourKey => t.hour
    case MinuteKey => t.minute
  }

  lemma PutFires(i: Interval, k: Slot, v: int, t: Moment)
    requires Get(i, k).None?
    ensures Fires(Put(i, k, v), t) <==> Fires(i, t) && KeyAgrees(Key(v), At(t, k))
  {
  }

  /** A list that is a star alone, or holds no star. */
  predicate Plain(vs: seq<int>) {
    vs == [-1] || -1 !in vs
  }

  lemma TimesFires(xs: seq<Interval>, k: Slot, vs: seq<int>, t: Moment)
    requires AllOpen(xs, k) && Plain(vs)
    ensures SomeAgrees(Times(xs, k, vs), t) <==> SomeAgrees(xs, t) && ListAllows(vs, At(t, k))
  {
    if SomeAgrees(Times(xs, k, vs), t) {
      var i :| i in Times(xs, k, vs) && Fires(i, t);
      TimesHolds(xs, k, vs, i);
      var b, v :| b in xs && v in vs && i == Put(b, k, v);
      PutFires(b, k, v, t);
    }
    if SomeAgrees(xs, t) && ListAllows(vs, At(t, k)) {
      var b :| b in xs && Fires(b, t);
      var v := if vs == [-1] then -1 else At(t, k);
      assert v in vs;
      PutFires(b, k, v, t);
      TimesHolds(xs, k, vs, Put(b, k, v));
    }
  }

  // The nested loops

  function WithMinutes(xs: seq<Interval>, l: Lists): seq<Interval> {
    Times(xs, MinuteKey, l.minutes)
  }

  function WithHours(xs: seq<Interval>, l: Lists): seq<Interval> {
    WithMinutes(Times(xs, HourKey, l.hours), l)
  }

  function WithWeekdays(xs: seq<Interval>, l: Lists): seq<Interval> {
    WithHours(Times(xs, WeekdayKey, l.weekdays), l)
  }

  function WithDays(xs: seq<Interval>, l: Lists): seq<Interval> {
    WithWeekdays(Times(xs, DayKey, l.days), l)
  }

  /** Month by month, day by day, and so on down to the minute. */
  function Product(l: Lists): seq<Interval> {
    WithDays(Times([ANYTIME], MonthKey, l.months), l)
  }

  lemma TimesOne(i: Interval, k: Slot, vs: seq<int>)
    ensures Times([i], k, vs) == Each(i, k, vs)
  {
    assert [i][..0] == [];
  }

  lemma MinutesConcat(a: seq<Interval>, b: seq<Interval>, l: Lists)
    ensures WithMinutes(a + b, l) == WithMinutes(a, l) + WithMinutes(b, l)
  {
    TimesConcat(a, b, MinuteKey, l.minutes);
  }

  lemma HoursConcat(a: seq<Interval>, b: seq<Interval>, l: Lists)
    ensures WithHours(a + b, l) == WithHours(a, l) + WithHours(b, l)
  {
    TimesConcat(a, b, HourKey, l.hours);
    MinutesConcat(Times(a, HourKey, l.hours), Times(b, HourKey, l.hours), l);
  }

  lemma WeekdaysConcat(a: seq<Interval>, b: seq<Interval>, l: Lists)
    ensures WithWeekdays(a + b, l) == WithWeekdays(a, l) + WithWeekdays(b, l)
  {
    TimesConcat(a, b, WeekdayKey, l.weekdays);
    HoursConcat(Times(a, WeekdayKey, l.weekdays), Times(b, WeekdayKey, l.weekdays), l);
  }

  lemma DaysConcat(a: seq<Interval>, b: seq<Interval>, l: Lists)
    ensures WithDays(a + b, l) == WithDays(a, l) + WithDays(b, l)
  {
    TimesConcat(a, b, DayKey, l.days);
    WeekdaysConcat(Times(a, DayKey, l.days), Times(b, DayKey, l.days), l);
  }

  lemma OneMore(i: Interval, k: Slot, vs: seq<int>, n: nat)
    requires n < |vs|
    ensures Each(i, k, vs[..n + 1]) == Each(i, k, vs[..n]) + [Put(i, k, vs[n])]
    ensures vs[..|vs|] == vs
  {
    assert vs[..n + 1][..n] == vs[..n];
  }

  /** Every combination of the expanded fields, the minute changing fastest. */
  method ParseCronToCalendarIntervals(s: Schedule) returns (r: Compiled, ghost l: Lists)
    ensures r.Unsupported? <==> Restricts(s) || !FieldsValid(s)
    ensures r.Intervals? ==> ExpandsTo(s, l) && r.intervals == Product(l)
  {
    l := Lists([], [], [], [], []);
    if s.day != "*" && s.weekday != "*" {
      return Unsupported, l;
    }
    var minutes := ExpandCronField(s.minute, 0, 59);
    var hours := ExpandCronField(s.hour, 0, 23);
    var days := ExpandCronField(s.day, 1, 31);
    var months := ExpandCronField(s.month, 1, 12);
    var weekdays := ExpandCronField(s.weekday, 0, 7);
    if minutes.Invalid? || hours.Invalid? || days.Invalid? || months.Invalid? || weekdays.Invalid? {
      return Unsupported, l;
    }
    l := Lists(minutes.values, hours.values, days.values, months.values, weekdays.values);
    var intervals := Nest(minutes.values, hours.values, days.values, months.values, weekdays.values);
    r := Intervals(intervals);
  }

  ghost predicate ListMeans(vs: seq<int>, field: string, min: nat, max: nat) {
    if field == "*" then vs == [-1]
    else Ascending(vs) && forall v :: v in vs <==> FieldMeans(field, min, max, v)
  }

  ghost predicate ExpandsTo(s: Schedule, l: Lists) {
    && ListMeans(l.minutes, s.minute, 0, 59) && ListMeans(l.hours, s.hour, 0, 23)
    && ListMeans(l.days, s.day, 1, 31) && ListMeans(l.months, s.month, 1, 12)
    && ListMeans(l.weekdays, s.weekday, 0, 7)
  }

  lemma HourStep(i: Interval, l: Lists, n: nat)
    requires n < |l.hours|
    ensures var e := Put(i, HourKey, l.hours[n]);
      WithMinutes(Each(i, HourKey, l.hours[..n + 1]), l)
      == WithMinutes(Each(i, HourKey, l.hours[..n]), l) + Each(e, MinuteKey, l.minutes)
  {
    var e := Put(i, HourKey, l.hours[n]);
    OneMore(i, HourKey, l.hours, n);
    MinutesConcat(Each(i, HourKey, l.hours[..n]), [e], l);
    TimesOne(e, MinuteKey, l.minutes);
  }

  lemma WeekdayStep(i: Interval, l: Lists, n: nat)
    requires n < |l.weekdays|
    ensures var e := Put(i, WeekdayKey, l.weekdays[n]);
      WithHours(Each(i, WeekdayKey, l.weekdays[..n + 1]), l)
      == WithHours(Each(i, WeekdayKey, l.weekdays[..n]), l) + WithMinutes(Each(e, HourKey, l.hours), l)
  {
    var e := Put(i, WeekdayKey, l.weekdays[n]);
    OneMore(i, WeekdayKey, l.weekdays, n);
    HoursConcat(Each(i, WeekdayKey, l.weekdays[..n]), [e], l);
    TimesOne(e, HourKey, l.hours);
  }

  lemma DayStep(i: Interval, l: Lists, n: nat)
    requires n < |l.days|
    ensures var e := Put(i, DayKey, l.days[n]);
      WithWeekdays(Each(i, DayKey, l.days[..n + 1]), l)
      == WithWeekdays(Each(i, DayKey, l.days[..n]), l) + WithHours(Each(e, WeekdayKey, l.weekdays), l)
  {
    var e := Put(i, DayKey, l.days[n]);
    OneMore(i, DayKey, l.days, n);
    WeekdaysConcat(Each(i, DayKey, l.days[..n]), [e], l);
    TimesOne(e, WeekdayKey, l.weekdays);
  }

  lemma MonthStep(i: Interval, l: Lists, n: nat)
    requires n < |l.months|
    ensures var e := Put(i, MonthKey, l.months[n]);
      WithDays(Each(i, MonthKey, l.months[..n + 1]), l)
      == WithDays(Each(i, MonthKey, l.months[..n]), l) + WithWeekdays(Each(e, DayKey, l.days), l)
  {
    var e := Put(i, MonthKey, l.months[n]);
    OneMore(i, MonthKey, l.months, n);
    DaysConcat(Each(i, MonthKey, l.months[..n]), [e], l);
    TimesOne(e, DayKey, l.days);
  }

  /** The innermost loop. */
  method AddMinutes(sofar: seq<Interval>, i: Interval, minutes: seq<int>) returns (intervals: seq<Interval>)
    ensures intervals == sofar + Each(i, MinuteKey, minutes)
  {
    intervals := sofar;
    for n := 0 to |minutes|
      invariant intervals == sofar + Each(i, MinuteKey, minutes[..n])
    {
      OneMore(i, MinuteKey, minutes, n);
      intervals := intervals + [Put(i, MinuteKey, minutes[n])];
    }
    assert minutes[..|minutes|] == minutes;
  }

  /** Around it, the hours. */
  method AddHours(sofar: seq<Interval>, i: Interval, minutes: seq<int>, hours: seq<int>, ghost l: Lists) returns (intervals: seq<Interval>)
    requires l.minutes == minutes && l.hours == hours
    ensures intervals == sofar + WithMinutes(Each(i, HourKey, hours), l)
  {
    intervals := sofar;
    for n := 0 to |hours|
      invariant intervals == sofar + WithMinutes(Each(i, HourKey, hours[..n]), l)
    {
      HourStep(i, l, n);
      Assoc(sofar, WithMinutes(Each(i, HourKey, hours[..n]), l), Each(Put(i, HourKey, hours[n]), MinuteKey, minutes));
      intervals := AddMinutes(intervals, Put(i, HourKey, hours[n]), minutes);
    }
    assert hours[..|hours|] == hours;
  }

  /** Around them, the weekdays. */
  method AddWeekdays(sofar: seq<Interval>, i: Interval, minutes: seq<int>, hours: seq<int>, weekdays: seq<int>, ghost l: Lists) returns (intervals: seq<Interval>)
    requires l.minutes == minutes && l.hours == hours && l.weekdays == weekdays
    ensures intervals == sofar + WithHours(Each(i, WeekdayKey, weekdays), l)
  {
    intervals := sofar;
    for n := 0 to |weekdays|
      invariant intervals == sofar + WithHours(Each(i, WeekdayKey, weekdays[..n]), l)
    {
      WeekdayStep(i, l, n);
      Assoc(sofar, WithHours(Each(i, WeekdayKey, weekdays[..n]), l), WithMinutes(Each(Put(i, WeekdayKey, weekdays[n]), HourKey, hours), l));
      intervals := AddHours(intervals, Put(i, WeekdayKey, weekdays[n]), minutes, hours, l);
    }
    assert weekdays[..|weekdays|] == weekdays;
  }

  /** Around them, the days. */
  method AddDays(sofar: seq<Interval>, i: Interval, minutes: seq<int>, hours: seq<int>, weekdays: seq<int>, days: seq<int>, ghost l: Lists) returns (intervals: seq<Interval>)
    requires l.minutes == minutes && l.hours == hours && l.weekdays == weekdays && l.days == days
    ensures intervals == sofar + WithWeekdays(Each(i, DayKey, days), l)
  {
    intervals := sofar;
    for n := 0 to |days|
      invariant intervals == sofar + WithWeekdays(Each(i, DayKey, days[..n]), l)
    {
      DayStep(i, l, n);
      Assoc(sofar, WithWeekdays(Each(i, DayKey, days[..n]), l), WithHours(Each(Put(i, DayKey, days[n]), WeekdayKey, weekdays), l));
      intervals := AddWeekdays(intervals, Put(i, DayKey, days[n]), minutes, hours, weekdays, l);
    }
    assert days[..|days|] == days;
  }

  /** Outermost, the months. */
  method Nest(minutes: seq<int>, hours: seq<int>, days: seq<int>, months: seq<int>, weekdays: seq<int>)
    returns (intervals: seq<Interval>)
    ensures intervals == Product(Lists(minutes, hours, days, months, weekdays))
  {
    ghost var l := Lists(minutes, hours, days, months, weekdays);
    intervals := [];
    for n := 0 to |months|
      invariant intervals == WithDays(Each(ANYTIME, MonthKey, months[..n]), l)
    {
      MonthStep(ANYTIME, l, n);
      intervals := AddDays(intervals, Put(ANYTIME, MonthKey, months[n]), minutes, hours, weekdays, days, l);
    }
    assert months[..|months|] == months;
    TimesOne(ANYTIME, MonthKey, months);
  }

  // The compiled schedule

  lemma ListFacts(vs: seq<int>, field: string, min: nat, max: nat)
    requires ListMeans(vs, field, min, max)
    ensures Apart(vs) && Plain(vs)
    ensures forall v: nat :: ListAllows(vs, v) <==> FieldMeans(field, min, max, v)
  {
    if field != "*" {
      NeverBelowZero(field, min, max);
    }
  }

  lemma NeverBelowZero(field: string, min: nat, max: nat)
    requires field != "*"
    ensures !FieldMeans(field, min, max, -1)
  {
  }

  lemma OpenProduct(l: Lists)
    ensures var a := Times([ANYTIME], MonthKey, l.months);
      var b := Times(a, DayKey, l.days);
      var c := Times(b, WeekdayKey, l.weekdays);
      var d := Times(c, HourKey, l.hours);
      AllOpen(a, DayKey) && AllOpen(b, WeekdayKey) && AllOpen(c, HourKey) && AllOpen(d, MinuteKey)
  {
    var one := [ANYTIME];
    var a := Times(one, MonthKey, l.months);
    var b := Times(a, DayKey, l.days);
    var c := Times(b, WeekdayKey, l.weekdays);
    TimesOpen(one, MonthKey, l.months, DayKey);
    TimesOpen(one, MonthKey, l.months, WeekdayKey);
    TimesOpen(one, MonthKey, l.months, HourKey);
    TimesOpen(one, MonthKey, l.months, MinuteKey);
    TimesOpen(a, DayKey, l.days, WeekdayKey);
    TimesOpen(a, DayKey, l.days, HourKey);
    TimesOpen(a, DayKey, l.days, MinuteKey);
    TimesOpen(b, WeekdayKey, l.weekdays, HourKey);
    TimesOpen(b, WeekdayKey, l.weekdays, MinuteKey);
    TimesOpen(c, HourKey, l.hours, MinuteKey);
  }

  predicate ListsAllow(l: Lists, t: Moment) {
    && ListAllows(l.months, t.month) && ListAllows(l.days, t.day) && ListAllows(l.weekdays, t.weekday)
    && ListAllows(l.hours, t.hour) && ListAllows(l.minutes, t.minute)
  }

  predicate AllPlain(l: Lists) {
    Plain(l.months) && Plain(l.days) && Plain(l.weekdays) && Plain(l.hours) && Plain(l.minutes)
  }

  lemma ProductFires(l: Lists, t: Moment)
    requires AllPlain(l)
    ensures SomeAgrees(Product(l), t) <==> ListsAllow(l, t)
  {
    var one := [ANYTIME];
    var a := Times(one, MonthKey, l.months);
    var b := Times(a, DayKey, l.days);
    var c := Times(b, WeekdayKey, l.weekdays);
    var d := Times(c, HourKey, l.hours);
    OpenProduct(l);
    assert ANYTIME in one && Fires(ANYTIME, t);
    TimesFires(one, MonthKey, l.months, t);
    TimesFires(a, DayKey, l.days, t);
    TimesFires(b, WeekdayKey, l.weekdays, t);
    TimesFires(c, HourKey, l.hours, t);
    TimesFires(d, MinuteKey, l.minutes, t);
  }

  lemma ListMeansField(vs: seq<int>, field: string, min: nat, max: nat, v: nat)
    requires ListMeans(vs, field, min, max)
    ensures Plain(vs) && (ListAllows(vs, v) <==> FieldMeans(field, min, max, v))
  {
    ListFacts(vs, field, min, max);
  }

  /** Compilation keeps the meaning: at every moment some interval fires exactly when all
      five fields match. */
  lemma CompilationKeepsMeaning(s: Schedule, l: Lists, t: Moment)
    requires ExpandsTo(s, l) && IsMoment(t)
    ensures SomeAgrees(Product(l), t) <==> Matches(s, t)
  {
    ListMeansField(l.months, s.month, 1, 12, t.month);
    ListMeansField(l.days, s.day, 1, 31, t.day);
    ListMeansField(l.weekdays, s.weekday, 0, 7, t.weekday);
    ListMeansField(l.hours, s.hour, 0, 23, t.hour);
    ListMeansField(l.minutes, s.minute, 0, 59, t.minute);
    ProductFires(l, t);
  }

  function Size(l: Lists): nat {
    |l.months| * |l.days| * |l.weekdays| * |l.hours| * |l.minutes|
  }

  /** The intervals are pairwise distinct, and as many as the product of the list sizes. */
  lemma IntervalsAreDistinct(s: Schedule, l: Lists)
    requires ExpandsTo(s, l)
    ensures Distinct(Product(l)) && |Product(l)| == Size(l)
  {
    var one := [ANYTIME];
    var a := Times(one, MonthKey, l.months);
    var b := Times(a, DayKey, l.days);
    var c := Times(b, WeekdayKey, l.weekdays);
    var d := Times(c, HourKey, l.hours);
    OpenProduct(l);
    ListFacts(l.months, s.month, 1, 12);
    ListFacts(l.days, s.day, 1, 31);
    ListFacts(l.weekdays, s.weekday, 0, 7);
    ListFacts(l.hours, s.hour, 0, 23);
    ListFacts(l.minutes, s.minute, 0, 59);
    TimesDistinct(one, MonthKey, l.months);
    TimesDistinct(a, DayKey, l.days);
    TimesDistinct(b, WeekdayKey, l.weekdays);
    TimesDistinct(c, HourKey, l.hours);
    TimesDistinct(d, MinuteKey, l.minutes);
    TimesCounts(one, MonthKey, l.months);
    TimesCounts(a, DayKey, l.days);
    TimesCounts(b, WeekdayKey, l.weekdays);
    TimesCounts(c, HourKey, l.hours);
    TimesCounts(d, MinuteKey, l.minutes);
  }

  ghost predicate Fits(s: Schedule) {
    exists l: Lists :: ExpandsTo(s, l) && Size(l) <= MAX_INTERVALS
  }

  /** What the plist check accepts: at most MAX_INTERVALS combinations. */
  method ValidateCronScheduleForPlist(s: Schedule) returns (ok: bool)
    ensures ok <==> !Restricts(s) && FieldsValid(s) && Fits(s)
  {
    if s.day != "*" && s.weekday != "*" {
      return false;
    }
    var minutes := ExpandCronField(s.minute, 0, 59);
    var hours := ExpandCronField(s.hour, 0, 23);
    var days := ExpandCronField(s.day, 1, 31);
    var months := ExpandCronField(s.month, 1, 12);
    var weekdays := ExpandCronField(s.weekday, 0, 7);
    if minutes.Invalid? || hours.Invalid? || days.Invalid? || months.Invalid? || weekdays.Invalid? {
      return false;
    }
    ghost var l := Lists(minutes.values, hours.values, days.values, months.values, weekdays.values);
    assert ExpandsTo(s, l);
    forall k: Lists | ExpandsTo(s, k)
      ensures k == l
    {
      ExpansionIsUnique(s, k, l);
    }
    var count := |months.values| * |days.values| * |weekdays.values| * |hours.values| * |minutes.values|;
    ok := count <= MAX_INTERVALS;
  }

  /** The two ways of expanding a schedule agree. */
  lemma ExpansionIsUnique(s: Schedule, l: Lists, k: Lists)
    requires ExpandsTo(s, l) && ExpandsTo(s, k)
    ensures l == k
  {
    SameList(l.minutes, k.minutes, s.minute, 0, 59);
    SameList(l.hours, k.hours, s.hour, 0, 23);
    SameList(l.days, k.days, s.day, 1, 31);
    SameList(l.months, k.months, s.month, 1, 12);
    SameList(l.weekdays, k.weekdays, s.weekday, 0, 7);
  }

  lemma SameList(a: seq<int>, b: seq<int>, field: string, min: nat, max: nat)
    requires ListMeans(a, field, min, max) && ListMeans(b, field, min, max)
    ensures a == b
  {
    if field != "*" {
      AscendingUnique(a, b);
    }
  }

  lemma {:induction false} AscendingUnique(a: seq<int>, b: seq<int>)
    requires Ascending(a) && Ascending(b) && forall v :: v in a <==> v in b
    ensures a == b
    decreases |a|
  {
    if |a| > 0 {
      assert a[|a| - 1] in b && (|b| > 0 ==> b[|b| - 1] in a);
      var m, n := |a| - 1, |b| - 1;
      LastIsLargest(a, b[n]);
      LastIsLargest(b, a[m]);
      WithoutLast(a);
      WithoutLast(b);
      var c, d := a[..m], b[..n];
      forall v
        ensures v in c <==> v in d
      {
        assert v in c <==> v in a && v != a[m];
        assert v in d <==> v in b && v != b[n];
      }
      AscendingUnique(a[..m], b[..n]);
      assert a == a[..m] + [a[m]] && b == b[..n] + [b[n]];
    } else {
      NonEmptyHas(b);
    }
  }

  lemma NonEmptyHas(s: seq<int>)
    ensures |s| > 0 ==> exists v :: v in s
  {
    if |s| > 0 {
      var v: int := s[0];
      assert v in s;
    }
  }

  lemma LastIsLargest(s: seq<int>, v: int)
    requires Ascending(s) && v in s
    ensures |s| > 0 && v <= s[|s| - 1]
  {
  }

  lemma WithoutLast(s: seq<int>)
    requires Ascending(s) && |s| > 0
    ensures Ascending(s[..|s| - 1]) && forall v :: v in s[..|s| - 1] <==> v in s && v != s[|s| - 1]
  {
    var n := |s| - 1;
    forall v | v in s && v != s[n]
      ensures v in s[..n]
    {
      var i :| 0 <= i < |s| && s[i] == v;
      assert s[..n][i] == v;
    }
  }
}
