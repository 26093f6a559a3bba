/** The payment-history list (src/views/HistoryPagos.tsx): decoding the response, sorting by
    creation time (newest first), and filtering by an optional inclusive date range. */
module HistoryPagos {
  import opened Wrappers

  /** One payment as received. `createdAt` is the creation instant in milliseconds since the
      epoch (UTC); the other fields are carried unchanged and never inspected. */
  datatype Payment = Payment(
    id: int,
    amountPaidBs: string,
    exchangeRate: string,
    paymentMethod: string,
    reference: string,
    createdAt: int,
    status: string,
    clientName: string,
    clientPhone: string,
    planName: string,
    planPriceUsd: string)

  // ---------------------------------------------------------------------------------------
  // Response decoding
  // ---------------------------------------------------------------------------------------

  /** The shapes a list response body can take: a falsy value (`null`, `0`, `""`), a bare
      array, an object whose named list field (`payment` here; `plans`, `clients` and
      `membership` in the other views) holds an array or not (`None`), or any other value. */
  datatype Body<T> = Falsy | ArrayBody(items: seq<T>) | ObjectBody(field: Option<seq<T>>) | OtherBody

  /** The list a body carries, if any: the named field when it is an array, else the body
      itself when it is an array. */
  function Carried<T>(b: Body<T>): Option<seq<T>> {
    match b
    case ArrayBody(items) => Some(items)
    case ObjectBody(Some(items)) => Some(items)
    case _ => None
  }

  /** The decoder: the carried list, or the empty list when the body has an unexpected shape. */
  function Decode<T>(b: Body<T>): (r: seq<T>)
    ensures Carried(b).Some? ==> r == Carried(b).value
    ensures Carried(b).None? ==> r == []
  {
    if b.ObjectBody? && b.field.Some? then b.field.value
    else if b.ArrayBody? then b.items
    else []
  }

  /** Both encodings the backend may use decode back to the list they wrap. */
  lemma DecodeRoundTrip<T>(xs: seq<T>)
    ensures Decode(ObjectBody(Some(xs))) == xs
    ensures Decode(ArrayBody(xs)) == xs
  {
  }

  // ---------------------------------------------------------------------------------------
  // Sorting, newest first
  // ---------------------------------------------------------------------------------------

  ghost predicate SortedDesc(s: seq<Payment>) {
    forall i, j :: 0 <= i < j < |s| ==> s[i].createdAt >= s[j].createdAt
  }

  /** The tail of a newest-first list is newest first. */
  lemma SortedTail(s: seq<Payment>)
    requires |s| > 0 && SortedDesc(s)
    ensures SortedDesc(s[1..])
  {
    forall i, j | 0 <= i < j < |s| - 1 ensures s[1..][i].createdAt >= s[1..][j].createdAt {
      assert s[1..][i] == s[i + 1] && s[1..][j] == s[j + 1];
    }
  }

  /** Putting a payment no older than any of a newest-first list in front keeps it newest first. */
  lemma SortedCons(x: Payment, s: seq<Payment>)
    requires SortedDesc(s)
    requires forall q :: q in s ==> q.createdAt <= x.createdAt
    ensures SortedDesc([x] + s)
  {
    forall i, j | 0 <= i < j < |s| + 1 ensures ([x] + s)[i].createdAt >= ([x] + s)[j].createdAt {
      assert ([x] + s)[j] == s[j - 1];
      if i > 0 {
        assert ([x] + s)[i] == s[i - 1];
      }
    }
  }

  /** The payments of `s` created at instant `k`, in their order in `s`. */
  function WithTime(s: seq<Payment>, k: int): (r: seq<Payment>)
    ensures forall x :: x in r <==> x in s && x.createdAt == k
    ensures |r| <= |s|
  {
    if |s| == 0 then []
    else if s[0].createdAt == k then [s[0]] + WithTime(s[1..], k)
    else WithTime(s[1..], k)
  }

  /** `WithTime` distributes over a leading element. */
  lemma WithTimeCons(x: Payment, s: seq<Payment>, k: int)
    ensures WithTime([x] + s, k) == (if x.createdAt == k then [x] else []) + WithTime(s, k)
  {
    assert ([x] + s)[1..] == s;
  }

  /** Inserts `x` into a newest-first list before the first element not newer than it, so
      that among equal instants the inserted element comes first. */
  function Insert(x: Payment, ys: seq<Payment>): (r: seq<Payment>)
    requires SortedDesc(ys)
    ensures SortedDesc(r)
    ensures forall y :: y in r <==> y == x || y in ys
    ensures multiset(r) == multiset(ys) + multiset{x}
    ensures r[0] == x || (|ys| > 0 && r[0] == ys[0])
  {
    if |ys| == 0 || ys[0].createdAt <= x.createdAt then [x] + ys
    else
      var rest := Insert(x, ys[1..]);
      assert ys == [ys[0]] + ys[1..];
      [ys[0]] + rest
  }

  /** The sort `data.sort((a, b) => time(b) - time(a))`: newest first, and stable, as the
      language requires of `Array.prototype.sort`. */
  function SortDesc(xs: seq<Payment>): (r: seq<Payment>)
    ensures SortedDesc(r)
    ensures multiset(r) == multiset(xs)
  {
    if |xs| == 0 then []
    else
      assert xs == [xs[0]] + xs[1..];
      Insert(xs[0], SortDesc(xs[1..]))
  }

  lemma {:induction false} InsertStable(x: Payment, ys: seq<Payment>, k: int)
    requires SortedDesc(ys)
    ensures WithTime(Insert(x, ys), k) == (if x.createdAt == k then [x] else []) + WithTime(ys, k)
    decreases |ys|
  {
    if |ys| == 0 || ys[0].createdAt <= x.createdAt {
      WithTimeCons(x, ys, k);
    } else {
      SortedTail(ys);
      assert Insert(x, ys) == [ys[0]] + Insert(x, ys[1..]);
      InsertStable(x, ys[1..], k);
      WithTimeCons(ys[0], Insert(x, ys[1..]), k);
      WithTimeCons(ys[0], ys[1..], k);
      assert [ys[0]] + ys[1..] == ys;
    }
  }

  /** Sorting keeps payments created at the same instant in their received order. */
  lemma {:induction false} SortStable(xs: seq<Payment>, k: int)
    ensures WithTime(SortDesc(xs), k) == WithTime(xs, k)
    decreases |xs|
  {
    if |xs| > 0 {
      SortStable(xs[1..], k);
      InsertStable(xs[0], SortDesc(xs[1..]), k);
      WithTimeCons(xs[0], xs[1..], k);
      assert [xs[0]] + xs[1..] == xs;
    }
  }

  /** `r` is what a stable newest-first sort of `xs` yields. */
  ghost predicate StableSortOf(r: seq<Payment>, xs: seq<Payment>) {
    SortedDesc(r) && forall k :: WithTime(r, k) == WithTime(xs, k)
  }

  /** In a newest-first list the head is at least as new as every element. */
  lemma HeadIsNewest(s: seq<Payment>, x: Payment)
    requires SortedDesc(s) && x in s
    ensures s[0].createdAt >= x.createdAt
  {
    var j :| 0 <= j < |s| && s[j] == x;
  }

  /** Lists agreeing at every instant are both empty or both non-empty. */
  lemma EmptyTogether(a: seq<Payment>, b: seq<Payment>)
    requires forall k :: WithTime(a, k) == WithTime(b, k)
    ensures |a| == 0 <==> |b| == 0
  {
    if |b| > 0 {
      assert b[0] in WithTime(a, b[0].createdAt);
    }
    if |a| > 0 {
      assert a[0] in WithTime(b, a[0].createdAt);
    }
  }

  /** Two newest-first lists agreeing at every instant start at the same instant. */
  lemma HeadTimesAgree(a: seq<Payment>, b: seq<Payment>)
    requires SortedDesc(a) && SortedDesc(b) && |a| > 0 && |b| > 0
    requires WithTime(a, a[0].createdAt) == WithTime(b, a[0].createdAt)
    requires WithTime(a, b[0].createdAt) == WithTime(b, b[0].createdAt)
    ensures a[0].createdAt == b[0].createdAt
  {
    assert a[0] in WithTime(b, a[0].createdAt);
    HeadIsNewest(b, a[0]);
    assert b[0] in WithTime(a, b[0].createdAt);
    HeadIsNewest(a, b[0]);
  }

  /** Agreement at instant `k` passes from two lists with equal heads to their tails. */
  lemma TailsAgreeAt(a: seq<Payment>, b: seq<Payment>, k: int)
    requires |a| > 0 && |b| > 0 && a[0] == b[0]
    requires WithTime(a, k) == WithTime(b, k)
    ensures WithTime(a[1..], k) == WithTime(b[1..], k)
  {
    if a[0].createdAt == k {
      assert WithTime(a[1..], k) == WithTime(a, k)[1..];
      assert WithTime(b[1..], k) == WithTime(b, k)[1..];
    } else {
      assert WithTime(a[1..], k) == WithTime(a, k);
      assert WithTime(b[1..], k) == WithTime(b, k);
    }
  }

  /** Two newest-first lists with the same payments at every instant, in the same order,
      are equal. */
  lemma {:induction false} SortedUnique(a: seq<Payment>, b: seq<Payment>)
    requires SortedDesc(a) && SortedDesc(b)
    requires forall k :: WithTime(a, k) == WithTime(b, k)
    ensures a == b
    decreases |a|
  {
    EmptyTogether(a, b);
    if |a| > 0 {
      var k0 := a[0].createdAt;
      HeadTimesAgree(a, b);
      WithTimeCons(a[0], a[1..], k0);
      WithTimeCons(b[0], b[1..], k0);
      assert [a[0]] + a[1..] == a;
      assert [b[0]] + b[1..] == b;
      assert WithTime(a, k0)[0] == a[0];
      assert a[0] == b[0];
      forall k
        ensures WithTime(a[1..], k) == WithTime(b[1..], k)
      {
        TailsAgreeAt(a, b, k);
      }
      SortedUnique(a[1..], b[1..]);
    }
  }

  /** The sort is characterised by its specification: a list is the stable newest-first
      sort of `xs` exactly when it is `SortDesc(xs)`. */
  lemma SortCharacterised(xs: seq<Payment>, r: seq<Payment>)
    ensures StableSortOf(r, xs) <==> r == SortDesc(xs)
  {
    forall k ensures WithTime(SortDesc(xs), k) == WithTime(xs, k) {
      SortStable(xs, k);
    }
    if StableSortOf(r, xs) {
      SortedUnique(r, SortDesc(xs));
    }
  }

  // ---------------------------------------------------------------------------------------
  // Filtering by instants
  // ---------------------------------------------------------------------------------------

  /** Inclusive bounds on the creation instant; `None` leaves that side open. */
  datatype Bounds = Bounds(from: Option<int>, until: Option<int>)

  const Unbounded := Bounds(None, None)

  predicate Within(p: Payment, b: Bounds) {
    (b.from.None? || b.from.value <= p.createdAt) && (b.until.None? || p.createdAt <= b.until.value)
  }

  /** `s` can be obtained from `t` by deleting elements, keeping the order of the rest. */
  ghost predicate IsSubseq<T>(s: seq<T>, t: seq<T>)
    decreases |t|
  {
    if |s| == 0 then true
    else if |t| == 0 then false
    else (s[0] == t[0] && IsSubseq(s[1..], t[1..])) || IsSubseq(s, t[1..])
  }

  /** One pass of `Array.prototype.filter` with the bounds as predicate. */
  function Matching(ps: seq<Payment>, b: Bounds): (r: seq<Payment>)
    ensures forall p :: p in r <==> p in ps && Within(p, b)
    ensures IsSubseq(r, ps)
    ensures SortedDesc(ps) ==> SortedDesc(r)
  {
    if |ps| == 0 then []
    else
      var rest := Matching(ps[1..], b);
      if Within(ps[0], b) then
        assert SortedDesc(ps) ==> SortedDesc([ps[0]] + rest) by {
          if SortedDesc(ps) {
            SortedTail(ps);
            forall q | q in rest ensures q.createdAt <= ps[0].createdAt {
              HeadIsNewest(ps, q);
            }
            SortedCons(ps[0], rest);
          }
        }
        assert ([ps[0]] + rest)[1..] == rest;
        [ps[0]] + rest
      else
        assert SortedDesc(ps) ==> SortedDesc(rest) by {
          if SortedDesc(ps) { SortedTail(ps); }
        }
        rest
  }

  /** The filter keeps every payment within the bounds as often as it occurs, and drops every
      other payment. */
  lemma {:induction false} MatchingCounts(ps: seq<Payment>, b: Bounds)
    ensures forall p :: multiset(Matching(ps, b))[p] == if Within(p, b) then multiset(ps)[p] else 0
  {
    if |ps| > 0 {
      MatchingCounts(ps[1..], b);
      assert ps == [ps[0]] + ps[1..];
      assert multiset(ps) == multiset{ps[0]} + multiset(ps[1..]);
      var rest := Matching(ps[1..], b);
      if Within(ps[0], b) {
        assert Matching(ps, b) == [ps[0]] + rest;
        assert multiset([ps[0]] + rest) == multiset{ps[0]} + multiset(rest);
      } else {
        assert Matching(ps, b) == rest;
      }
    }
  }

  /** `filterPayments`: start from the full list, keep payments from the start bound on when
      one is set, then keep those up to the end bound when one is set. */
  function FilterPayments(ps: seq<Payment>, b: Bounds): (r: seq<Payment>)
    ensures b == Unbounded ==> r == ps
  {
    var temp := if b.from.Some? then Matching(ps, Bounds(b.from, None)) else ps;
    if b.until.Some? then Matching(temp, Bounds(None, b.until)) else temp
  }

  /** With no bound every payment is kept. */
  lemma {:induction false} MatchingUnbounded(ps: seq<Payment>)
    ensures Matching(ps, Unbounded) == ps
  {
    if |ps| > 0 {
      MatchingUnbounded(ps[1..]);
      assert [ps[0]] + ps[1..] == ps;
    }
  }

  /** The bounds both `b1` and `b2` impose, as one pair of bounds. */
  function Meet(b1: Bounds, b2: Bounds): (m: Bounds)
    ensures forall p :: Within(p, m) <==> Within(p, b1) && Within(p, b2)
  {
    Bounds(
      if b1.from.None? then b2.from
      else if b2.from.None? then b1.from
      else Some(if b1.from.value < b2.from.value then b2.from.value else b1.from.value),
      if b1.until.None? then b2.until
      else if b2.until.None? then b1.until
      else Some(if b1.until.value < b2.until.value then b1.until.value else b2.until.value))
  }

  /** Filtering twice is filtering once by the meet of the bounds. */
  lemma {:induction false} MatchingTwice(ps: seq<Payment>, b1: Bounds, b2: Bounds)
    ensures Matching(Matching(ps, b1), b2) == Matching(ps, Meet(b1, b2))
  {
    if |ps| > 0 {
      MatchingTwice(ps[1..], b1, b2);
      var rest := Matching(ps[1..], b1);
      if Within(ps[0], b1) {
        assert Matching(ps, b1) == [ps[0]] + rest;
        assert ([ps[0]] + rest)[1..] == rest;
      }
    }
  }

  /** The two-step filter keeps exactly the payments within both bounds, in their order:
      it is the single filter by the bounds. */
  lemma FilterIsOnePass(ps: seq<Payment>, b: Bounds)
    ensures FilterPayments(ps, b) == Matching(ps, b)
  {
    MatchingUnbounded(ps);
    if b.from.Some? && b.until.Some? {
      MatchingTwice(ps, Bounds(b.from, None), Bounds(None, b.until));
      assert Meet(Bounds(b.from, None), Bounds(None, b.until)) == b;
    }
  }

  /** What the filter promises: every kept payment is within the bounds, every payment within
      them is kept as often as it occurs, the order is that of the input, so a newest-first list stays newest-first. */
  lemma FilterSpec(ps: seq<Payment>, b: Bounds)
    ensures forall p :: p in FilterPayments(ps, b) <==> p in ps && Within(p, b)
    ensures forall p :: multiset(FilterPayments(ps, b))[p] == if Within(p, b) then multiset(ps)[p] else 0
    ensures IsSubseq(FilterPayments(ps, b), ps)
    ensures SortedDesc(ps) ==> SortedDesc(FilterPayments(ps, b))
  {
    FilterIsOnePass(ps, b);
    MatchingCounts(ps, b);
  }

  /** Filtering an already-filtered list by the same bounds changes nothing. */
  lemma FilterIdempotent(ps: seq<Payment>, b: Bounds)
    ensures FilterPayments(FilterPayments(ps, b), b) == FilterPayments(ps, b)
  {
    FilterIsOnePass(ps, b);
    FilterIsOnePass(FilterPayments(ps, b), b);
    MatchingTwice(ps, b, b);
    assert Meet(b, b) == b;
  }

  // ---------------------------------------------------------------------------------------
  // From the two date inputs to instant bounds
  // ---------------------------------------------------------------------------------------

  const DayMs := 86_400_000
  const HourMs := 3_600_000

  /** The two date inputs, each a calendar day (days since 1970-01-01) or empty. */
  datatype DateRange = DateRange(startDay: Option<int>, endDay: Option<int>)

  const NoDates := DateRange(None, None)

  /** The local calendar day of instant `t` in a zone `offset` milliseconds ahead of UTC. */
  function LocalDay(t: int, offset: int): int {
    (t + offset) / DayMs
  }

  /** `new Date("YYYY-MM-DD")`: a date-only string denotes midnight UTC of that day. */
  function MidnightUtc(day: int): int {
    day * DayMs
  }

  /** `setHours(23, 59, 59, 999)`: the last millisecond of the LOCAL day containing `t`. */
  function SetEndOfLocalDay(t: int, offset: int): (r: int)
    ensures LocalDay(r, offset) == LocalDay(t, offset)
    ensures LocalDay(r + 1, offset) == LocalDay(t, offset) + 1
  {
    LocalDay(t, offset) * DayMs + DayMs - 1 - offset
  }

  /** The bounds the view computes as written: the start at midnight UTC of the start day,
      the end at the end of the local day containing midnight UTC of the end day. */
  function BoundsAsWritten(range: DateRange, offset: int): (b: Bounds)
    ensures range.startDay.None? <==> b.from.None?
    ensures range.startDay.Some? ==> b.from == Some(MidnightUtc(range.startDay.value))
    ensures range.endDay.None? <==> b.until.None?
    ensures range.endDay.Some? ==>
      var day := LocalDay(MidnightUtc(range.endDay.value), offset);
      LocalDay(b.until.value, offset) == day && LocalDay(b.until.value + 1, offset) == day + 1
  {
    Bounds(
      if range.startDay.Some? then Some(MidnightUtc(range.startDay.value)) else None,
      if range.endDay.Some? then Some(SetEndOfLocalDay(MidnightUtc(range.endDay.value), offset)) else None)
  }

  /** The bounds the date inputs evidently intend: the first millisecond of the local start day
      and the last millisecond of the local end day. */
  function BoundsFor(range: DateRange, offset: int): Bounds {
    Bounds(
      if range.startDay.Some? then Some(range.startDay.value * DayMs - offset) else None,
      if range.endDay.Some? then Some((range.endDay.value + 1) * DayMs - 1 - offset) else None)
  }

  /** Division facts behind `LocalDay`: an instant lies at or after the start of day `d`
      exactly when its day is at least `d`, and at or before the end of day `e` exactly when
      its day is at most `e`. */
  lemma DayBoundaries(x: int, d: int)
    ensures d * DayMs <= x <==> d <= x / DayMs
    ensures x <= (d + 1) * DayMs - 1 <==> x / DayMs <= d
  {
    var q, r := x / DayMs, x % DayMs;
    assert x == q * DayMs + r && 0 <= r < DayMs;
    if d <= q {
      assert d * DayMs <= q * DayMs;
    } else {
      assert (q + 1) * DayMs <= d * DayMs;
    }
    if q <= d {
      assert (q + 1) * DayMs <= (d + 1) * DayMs;
    } else {
      assert (d + 1) * DayMs <= q * DayMs;
    }
  }

  /** The intended bounds select exactly the payments whose local day lies in the chosen
      range, both ends inclusive. */
  lemma BoundsForSelectsLocalDays(p: Payment, range: DateRange, offset: int)
    ensures Within(p, BoundsFor(range, offset)) <==>
      && (range.startDay.None? || range.startDay.value <= LocalDay(p.createdAt, offset))
      && (range.endDay.None? || LocalDay(p.createdAt, offset) <= range.endDay.value)
  {
    if range.startDay.Some? {
      DayBoundaries(p.createdAt + offset, range.startDay.value);
    }
    if range.endDay.Some? {
      DayBoundaries(p.createdAt + offset, range.endDay.value);
    }
  }

  /** At UTC the bounds as written are the intended ones. */
  lemma BoundsAgreeAtUtc(range: DateRange)
    ensures BoundsAsWritten(range, 0) == BoundsFor(range, 0)
  {
    if range.endDay.Some? {
      var d := range.endDay.value;
      assert LocalDay(MidnightUtc(d), 0) == d;
    }
  }

  /** West of UTC (four hours behind, as in Caracas) the end bound as written stops at the end
      of the PREVIOUS local day: a payment at 09:00 local time on the chosen end day is dropped. */
  lemma EndBoundDropsEndDay(d: int)
    ensures var offset := -4 * HourMs;
      var p := Payment(0, "", "", "", "", d * DayMs + 13 * HourMs, "", "", "", "", "");
      && LocalDay(p.createdAt, offset) == d
      && !Within(p, BoundsAsWritten(DateRange(None, Some(d)), offset))
      && Within(p, BoundsFor(DateRange(None, Some(d)), offset))
  {
    var offset := -4 * HourMs;
    assert LocalDay(d * DayMs + 13 * HourMs, offset) == d;
    assert LocalDay(MidnightUtc(d), offset) == d - 1;
  }

  /** West of UTC the start bound as written admits payments of the local day BEFORE the chosen
      start day: one at 21:00 local time on the eve is kept. */
  lemma StartBoundAdmitsEve(d: int)
    ensures var offset := -4 * HourMs;
      var p := Payment(0, "", "", "", "", d * DayMs + HourMs, "", "", "", "", "");
      && LocalDay(p.createdAt, offset) == d - 1
      && Within(p, BoundsAsWritten(DateRange(Some(d), None), offset))
      && !Within(p, BoundsFor(DateRange(Some(d), None), offset))
  {
    assert LocalDay(d * DayMs + HourMs, -4 * HourMs) == d - 1;
  }

  /** The list `filterPayments` shows for the selected dates, with the bounds as written. */
  function Shown(ps: seq<Payment>, range: DateRange, offset: int): (r: seq<Payment>)
    ensures forall p :: p in r <==> p in ps && Within(p, BoundsAsWritten(range, offset))
    ensures forall p :: multiset(r)[p] == if Within(p, BoundsAsWritten(range, offset)) then multiset(ps)[p] else 0
    ensures SortedDesc(ps) ==> SortedDesc(r)
    ensures range == NoDates ==> r == ps
  {
    FilterSpec(ps, BoundsAsWritten(range, offset));
    FilterPayments(ps, BoundsAsWritten(range, offset))
  }

  /** The list the date inputs evidently intend: the filter with the corrected bounds. */
  function ShownIntended(ps: seq<Payment>, range: DateRange, offset: int): seq<Payment> {
    FilterPayments(ps, BoundsFor(range, offset))
  }

  /** The intended list holds exactly the payments of the chosen local days. */
  lemma ShownIntendedDays(ps: seq<Payment>, range: DateRange, offset: int)
    ensures forall p :: p in ShownIntended(ps, range, offset) <==>
      && p in ps
      && (range.startDay.None? || range.startDay.value <= LocalDay(p.createdAt, offset))
      && (range.endDay.None? || LocalDay(p.createdAt, offset) <= range.endDay.value)
  {
    FilterSpec(ps, BoundsFor(range, offset));
    forall p {
      BoundsForSelectsLocalDays(p, range, offset);
    }
  }

  /** The intended list keeps each payment of the chosen local days as often as it occurs, and
      is newest first when the payments are. */
  lemma ShownIntendedSpec(ps: seq<Payment>, range: DateRange, offset: int)
    ensures forall p :: multiset(ShownIntended(ps, range, offset))[p] ==
                         if && (range.startDay.None? || range.startDay.value <= LocalDay(p.createdAt, offset))
                            && (range.endDay.None? || LocalDay(p.createdAt, offset) <= range.endDay.value)
                         then multiset(ps)[p] else 0
    ensures SortedDesc(ps) ==> SortedDesc(ShownIntended(ps, range, offset))
  {
    FilterSpec(ps, BoundsFor(range, offset));
    forall p {
      BoundsForSelectsLocalDays(p, range, offset);
    }
  }

  /** At UTC the list shown is the intended one. */
  lemma ShownIsIntendedAtUtc(ps: seq<Payment>, range: DateRange)
    ensures Shown(ps, range, 0) == ShownIntended(ps, range, 0)
  {
    BoundsAgreeAtUtc(range);
  }

  // ---------------------------------------------------------------------------------------
  // The view's state
  // ---------------------------------------------------------------------------------------

  /** The view's state: all payments, the list shown, the loading flag and the date inputs. */
  datatype View = View(payments: seq<Payment>, filtered: seq<Payment>, loading: bool, range: DateRange)

  /** The view on mount: nothing loaded, loading, no dates chosen. */
  function InitialView(): (v: View)
    ensures v.loading && v.payments == [] && v.filtered == [] && v.range == NoDates
  {
    View([], [], true, NoDates)
  }

  /** `fetchPayments` starting: loading is set and nothing else changes. */
  function BeginFetch(v: View): (r: View)
    ensures r.loading && r.payments == v.payments && r.filtered == v.filtered && r.range == v.range
  {
    v.(loading := true)
  }

  /** `fetchPayments` settling, followed by the filter effect the new list triggers. On success
      the decoded list, sorted newest first, replaces the payments and the shown list is
      recomputed from it; on failure (an error dialog is shown) both lists stay as they were.
      Either way loading ends. */
  function SettleFetch(v: View, o: Fetched<Body<Payment>>, offset: int): (r: View)
    ensures !r.loading && r.range == v.range
    ensures o.Err? ==> r.payments == v.payments && r.filtered == v.filtered
    ensures o.Ok? ==> r.payments == SortDesc(Decode(o.data))
    ensures o.Ok? ==> multiset(r.payments) == multiset(Decode(o.data)) && SortedDesc(r.payments)
    ensures o.Ok? ==> r.filtered == Shown(r.payments, v.range, offset)
  {
    match o
    case Err => v.(loading := false)
    case Ok(body) =>
      var data := SortDesc(Decode(body));
      View(data, Shown(data, v.range, offset), false, v.range)
  }

  /** Changing either date input (or clearing both) re-runs the filter. */
  function SetRange(v: View, range: DateRange, offset: int): (r: View)
    ensures r.payments == v.payments && r.loading == v.loading && r.range == range
    ensures r.filtered == Shown(v.payments, range, offset)
  {
    v.(range := range, filtered := Shown(v.payments, range, offset))
  }

  /** The view's invariant: the payments are newest first and the shown list is the filter of
      the payments by the chosen dates. */
  ghost predicate Consistent(v: View, offset: int) {
    SortedDesc(v.payments) && v.filtered == Shown(v.payments, v.range, offset)
  }

  /** Every transition keeps the view consistent, starting from the initial view. */
  lemma ViewInvariant(v: View, o: Fetched<Body<Payment>>, range: DateRange, offset: int)
    ensures Consistent(InitialView(), offset)
    ensures Consistent(v, offset) ==> Consistent(BeginFetch(v), offset)
    ensures Consistent(v, offset) ==> Consistent(SettleFetch(v, o, offset), offset)
    ensures Consistent(v, offset) ==> Consistent(SetRange(v, range, offset), offset)
  {
  }

  /** In a consistent view the shown list holds exactly the payments within the bounds as
      written, each as often as it occurs, newest first; with no dates chosen it is the whole
      list. */
  lemma ShownSpec(v: View, offset: int)
    requires Consistent(v, offset)
    ensures forall p :: p in v.filtered <==> p in v.payments && Within(p, BoundsAsWritten(v.range, offset))
    ensures forall p :: multiset(v.filtered)[p] ==
                       if Within(p, BoundsAsWritten(v.range, offset)) then multiset(v.payments)[p] else 0
    ensures SortedDesc(v.filtered)
    ensures v.range == NoDates ==> v.filtered == v.payments
  {
  }

  /** In a consistent view at UTC the shown list holds exactly the payments of the chosen days. */
  lemma ShownAtUtc(v: View)
    requires Consistent(v, 0)
    ensures forall p :: p in v.filtered <==>
      && p in v.payments
      && (v.range.startDay.None? || v.range.startDay.value <= LocalDay(p.createdAt, 0))
      && (v.range.endDay.None? || LocalDay(p.createdAt, 0) <= v.range.endDay.value)
  {
    ShownIsIntendedAtUtc(v.payments, v.range);
    ShownIntendedDays(v.payments, v.range, 0);
  }
}
