/** The bid list view: a fixed set of bid records, narrowed by four filters,
    ordered by a stable sort on one key, and shown five rows per page. */
module Bids {
  import opened Options
  import opened Text
  import opened Seqs
  import Paging

  datatype Status = Active | Completed

  /** The status as the record stores it. */
  function StatusText(s: Status): string
  {
    match s
    case Active => "active"
    case Completed => "completed"
  }

  /** A calendar date, the ISO 8601 complete date YYYY-MM-DD as (year, month, day). */
  datatype Date = Date(year: int, month: int, day: int)

  /** a is an earlier calendar day than b. */
  predicate DateLess(a: Date, b: Date)
  {
    a.year < b.year
    || (a.year == b.year && (a.month < b.month || (a.month == b.month && a.day < b.day)))
  }

  /** a is the same day as b or earlier. */
  predicate DateLe(a: Date, b: Date)
  {
    !DateLess(b, a)
  }

  lemma DateLeIff(a: Date, b: Date)
    ensures DateLe(a, b) <==> a == b || DateLess(a, b)
  {
  }

  /** A bid record; `amount` is the formatted text, such as "$500". */
  datatype Bid = Bid(id: int, project: string, date: Date, amount: string, status: Status)

  // ---------------------------------------------------------------------------
  // Reading an amount: amount.replace(/[^0-9.-]+/g, '') followed by parseFloat.

  predicate IsDigit(c: char)
  {
    '0' <= c <= '9'
  }

  /** The characters the pattern /[^0-9.-]+/g does not remove. */
  predicate IsAmountChar(c: char)
  {
    IsDigit(c) || c == '.' || c == '-'
  }

  /** The amount text with every character other than a digit, '.' or '-' removed. */
  function StripAmount(s: string): (r: string)
    ensures forall i :: 0 <= i < |r| ==> IsAmountChar(r[i])
    ensures Subsequence(r, s)
    ensures forall c :: c in s && IsAmountChar(c) ==> c in r
  {
    FilterIsSubsequence(s, IsAmountChar);
    FilterMembers(s, IsAmountChar);
    Filter(s, IsAmountChar)
  }

  /** The longest prefix of s made of digits. */
  function LeadingDigits(s: string): (r: string)
    ensures StartsWith(s, r)
    ensures forall i :: 0 <= i < |r| ==> IsDigit(r[i])
    ensures |r| < |s| ==> !IsDigit(s[|r|])
  {
    if s != [] && IsDigit(s[0]) then [s[0]] + LeadingDigits(s[1..]) else []
  }

  function DigitValue(c: char): nat
    requires IsDigit(c)
  {
    c as int - '0' as int
  }

  /** The number a string of decimal digits denotes. */
  function DigitsValue(d: string): nat
    requires forall i :: 0 <= i < |d| ==> IsDigit(d[i])
  {
    if d == [] then 0 else DigitsValue(d[..|d| - 1]) * 10 + DigitValue(d[|d| - 1])
  }

  /** parseFloat on the stripped text, for whole numbers: an optional '-' and a
      run of digits; anything after the run is ignored. None is NaN. */
  function ParseLeadingInt(t: string): (r: Option<int>)
    ensures r.Some? <==> (t != [] && IsDigit(t[0])) || (|t| >= 2 && t[0] == '-' && IsDigit(t[1]))
    ensures r.Some? && t[0] == '-' ==> r.value <= 0
    ensures r.Some? && t[0] != '-' ==> r.value >= 0
  {
    if t != [] && t[0] == '-' then
      var d := LeadingDigits(t[1..]);
      if d == [] then None else Some(-(DigitsValue(d) as int))
    else
      var d := LeadingDigits(t);
      if d == [] then None else Some(DigitsValue(d))
  }

  /** The numeric value of a bid's amount text (None when it reads as NaN). */
  function AmountOf(amount: string): (r: Option<int>)
    ensures r.Some? ==> exists i :: 0 <= i < |amount| && IsDigit(amount[i])
  {
    var t := StripAmount(amount);
    var r := ParseLeadingInt(t);
    if r.Some? then
      var c := if t[0] == '-' then t[1] else t[0];
      assert c in t && IsDigit(c);
      r
    else
      r
  }

  function DigitChar(d: nat): (c: char)
    requires d < 10
    ensures IsDigit(c) && DigitValue(c) == d
  {
    ('0' as int + d) as char
  }

  /** The decimal numeral of n. */
  function DecimalText(n: nat): (r: string)
    ensures r != [] && forall i :: 0 <= i < |r| ==> IsDigit(r[i])
  {
    if n < 10 then [DigitChar(n)] else DecimalText(n / 10) + [DigitChar(n % 10)]
  }

  /** A whole-dollar amount the way the bid records write it, "$" and the numeral. */
  function DollarText(n: nat): string
  {
    "$" + DecimalText(n)
  }

  lemma {:induction false} DecimalTextValue(n: nat)
    ensures DigitsValue(DecimalText(n)) == n
  {
    if n >= 10 {
      DecimalTextValue(n / 10);
      var d := DecimalText(n);
      assert d[..|d| - 1] == DecimalText(n / 10);
    }
  }

  lemma {:induction false} LeadingDigitsOfDigits(d: string)
    requires forall i :: 0 <= i < |d| ==> IsDigit(d[i])
    ensures LeadingDigits(d) == d
  {
    if d != [] {
      LeadingDigitsOfDigits(d[1..]);
      assert d == [d[0]] + d[1..];
    }
  }

  /** Reading back a whole-dollar amount gives its value: the strip-and-parse
      step inverts the record format, so "$900" reads as 900 and "$150" as 150. */
  lemma AmountOfDollarText(n: nat)
    ensures AmountOf(DollarText(n)) == Some(n)
  {
    var d := DecimalText(n);
    assert DollarText(n)[1..] == d;
    FilterAll(d, IsAmountChar);
    assert StripAmount(DollarText(n)) == d;
    LeadingDigitsOfDigits(d);
    DecimalTextValue(n);
  }

  // ---------------------------------------------------------------------------
  // Filters

  datatype StatusFilter = All | Only(status: Status)

  /** The six filter fields: status, project query, the two amount bounds ('' is
      None) and the two picked dates (null is None). */
  datatype Filters = Filters(
    status: StatusFilter,
    project: string,
    amountMin: Option<int>,
    amountMax: Option<int>,
    dateStart: Option<Date>,
    dateEnd: Option<Date>)

  predicate StatusMatches(f: Filters, b: Bid)
  {
    f.status.All? || b.status == f.status.status
  }

  /** The project filter applies once the trimmed query is non-empty, and then
      compares with the untrimmed query. */
  predicate ProjectMatches(f: Filters, b: Bid)
  {
    Trim(f.project) == [] || ContainsIgnoringCase(b.project, f.project)
  }

  /** min <= amount <= max. An unset minimum is Number.MIN_VALUE, the smallest
      positive number, so a whole amount then has to be at least 1; an unset
      maximum bounds nothing. A NaN amount fails both comparisons. */
  predicate WithinAmountBounds(f: Filters, b: Bid)
  {
    match AmountOf(b.amount)
    case None => false
    case Some(v) =>
      (if f.amountMin.Some? then f.amountMin.value <= v else 1 <= v)
      && (f.amountMax.None? || v <= f.amountMax.value)
  }

  predicate AmountMatches(f: Filters, b: Bid)
  {
    (f.amountMin.None? && f.amountMax.None?) || WithinAmountBounds(f, b)
  }

  /** isWithinInterval of date-fns 3 and later: d lies between the two ends,
      both included, whichever of them is the earlier. */
  predicate WithinInterval(d: Date, start: Date, end: Date)
  {
    if DateLess(end, start) then DateLe(end, d) && DateLe(d, start)
    else DateLe(start, d) && DateLe(d, end)
  }

  /** The date filter applies only when both ends are picked. */
  predicate DateMatches(f: Filters, b: Bid)
  {
    !(f.dateStart.Some? && f.dateEnd.Some?)
    || WithinInterval(b.date, f.dateStart.value, f.dateEnd.value)
  }

  /** A bid passes all four filters. */
  predicate Visible(f: Filters, b: Bid)
  {
    StatusMatches(f, b) && ProjectMatches(f, b) && AmountMatches(f, b) && DateMatches(f, b)
  }

  function StatusTest(f: Filters): Bid -> bool
  {
    b => StatusMatches(f, b)
  }

  function ProjectTest(f: Filters): Bid -> bool
  {
    b => ProjectMatches(f, b)
  }

  function AmountTest(f: Filters): Bid -> bool
  {
    b => AmountMatches(f, b)
  }

  function DateTest(f: Filters): Bid -> bool
  {
    b => DateMatches(f, b)
  }

  function VisibleTest(f: Filters): Bid -> bool
  {
    b => Visible(f, b)
  }

  /** One stage of the chain: filter by the test when the stage applies,
      otherwise pass the list through. */
  function Stage(s: seq<Bid>, applies: bool, test: Bid -> bool): seq<Bid>
  {
    if applies then Filter(s, test) else s
  }

  /** The filter chain, stage by stage as the view runs it. The result keeps
      exactly the bids that pass all four filters, in their original order. */
  function ApplyFilters(bids: seq<Bid>, f: Filters): (r: seq<Bid>)
    ensures Subsequence(r, bids) && |r| <= |bids|
    ensures forall b :: b in r <==> b in bids && Visible(f, b)
  {
    var byStatus := Stage(bids, f.status != All, StatusTest(f));
    var byProject := Stage(byStatus, Trim(f.project) != [], ProjectTest(f));
    var byAmount := Stage(byProject, f.amountMin.Some? || f.amountMax.Some?, AmountTest(f));
    var byDate := Stage(byAmount, f.dateStart.Some? && f.dateEnd.Some?, DateTest(f));
    ChainIsOneFilter(bids, f);
    FilterIsSubsequence(bids, VisibleTest(f));
    FilterMembers(bids, VisibleTest(f));
    byDate
  }

  /** A stage whose test passes every bid when the stage does not apply is a
      plain filter by the test. */
  lemma StageIsFilter(s: seq<Bid>, applies: bool, test: Bid -> bool)
    requires !applies ==> forall b :: test(b)
    ensures Stage(s, applies, test) == Filter(s, test)
  {
    if !applies {
      FilterAll(s, test);
    }
  }

  /** The four stages together are one filter by Visible. */
  lemma ChainIsOneFilter(bids: seq<Bid>, f: Filters)
    ensures
      var byStatus := Stage(bids, f.status != All, StatusTest(f));
      var byProject := Stage(byStatus, Trim(f.project) != [], ProjectTest(f));
      var byAmount := Stage(byProject, f.amountMin.Some? || f.amountMax.Some?, AmountTest(f));
      Stage(byAmount, f.dateStart.Some? && f.dateEnd.Some?, DateTest(f)) == Filter(bids, VisibleTest(f))
  {
    var s1 := Stage(bids, f.status != All, StatusTest(f));
    StageIsFilter(bids, f.status != All, StatusTest(f));
    var s2 := Stage(s1, Trim(f.project) != [], ProjectTest(f));
    StageIsFilter(s1, Trim(f.project) != [], ProjectTest(f));
    var s3 := Stage(s2, f.amountMin.Some? || f.amountMax.Some?, AmountTest(f));
    StageIsFilter(s2, f.amountMin.Some? || f.amountMax.Some?, AmountTest(f));
    StageIsFilter(s3, f.dateStart.Some? && f.dateEnd.Some?, DateTest(f));
    var t12: Bid -> bool := b => StatusMatches(f, b) && ProjectMatches(f, b);
    var t123: Bid -> bool := b => t12(b) && AmountMatches(f, b);
    FilterFilter(bids, StatusTest(f), ProjectTest(f), t12);
    FilterFilter(bids, t12, AmountTest(f), t123);
    FilterFilter(bids, t123, DateTest(f), VisibleTest(f));
  }

  /** The filters as they start out and as the reset button leaves them. */
  const NoFilters := Filters(All, "", None, None, None, None)

  /** With no filter set every bid is shown, in its original order. */
  lemma NoFiltersKeepEverything(bids: seq<Bid>)
    ensures ApplyFilters(bids, NoFilters) == bids
  {
    ChainIsOneFilter(bids, NoFilters);
    FilterAll(bids, VisibleTest(NoFilters));
  }

  /** Unfiltered and unsorted, the list is the records in their order. */
  lemma DefaultViewIsRecords(bids: seq<Bid>, f: Filters, cfg: SortConfig)
    ensures f == NoFilters && cfg.key == Unsorted ==> SortData(ApplyFilters(bids, f), cfg) == bids
  {
    NoFiltersKeepEverything(bids);
  }

  /** With only a maximum set, a bid whose amount is zero or negative is dropped,
      because the missing minimum stands for the smallest positive number. */
  lemma OnlyMaxDropsNonPositive(bids: seq<Bid>, f: Filters, b: Bid)
    requires f.amountMin.None? && f.amountMax.Some?
    requires b in bids && AmountOf(b.amount).Some? && AmountOf(b.amount).value <= 0
    ensures b !in ApplyFilters(bids, f)
  {
  }

  /** With both dates picked, the start no later than the end, a bid is kept
      or dropped by its date exactly as the inclusive interval says, once it
      passes the other filters. */
  lemma DateFilterInclusive(bids: seq<Bid>, f: Filters, b: Bid)
    requires f.dateStart.Some? && f.dateEnd.Some? && DateLe(f.dateStart.value, f.dateEnd.value)
    requires b in bids && StatusMatches(f, b) && ProjectMatches(f, b) && AmountMatches(f, b)
    ensures b in ApplyFilters(bids, f) <==> DateLe(f.dateStart.value, b.date) && DateLe(b.date, f.dateEnd.value)
  {
  }

  /** With the end picked before the start, the two ends swap roles: a bid
      passing the other filters is kept exactly when its day lies from the
      end to the start, both included. */
  lemma InvertedIntervalIsOrdered(bids: seq<Bid>, f: Filters, b: Bid)
    requires f.dateStart.Some? && f.dateEnd.Some? && DateLess(f.dateEnd.value, f.dateStart.value)
    requires b in bids && StatusMatches(f, b) && ProjectMatches(f, b) && AmountMatches(f, b)
    ensures b in ApplyFilters(bids, f) <==> DateLe(f.dateEnd.value, b.date) && DateLe(b.date, f.dateStart.value)
  {
  }

  /** The inverted interval is the interval with its ends swapped. */
  lemma IntervalEndsCommute(d: Date, start: Date, end: Date)
    ensures WithinInterval(d, start, end) == WithinInterval(d, end, start)
  {
  }

  // ---------------------------------------------------------------------------
  // Sorting

  datatype SortKey = Unsorted | ByProject | ByDate | ByAmount | ByStatus
  datatype Direction = Ascending | Descending
  datatype SortConfig = SortConfig(key: SortKey, direction: Direction)

  /** `aValue < bValue` for the sort key: string order for the project and the
      status, calendar order for the date, numeric order for the amount (where
      NaN is below nothing and above nothing). */
  predicate KeyLess(key: SortKey, a: Bid, b: Bid)
  {
    match key
    case Unsorted => false
    case ByProject => StrLess(a.project, b.project)
    case ByDate => DateLess(a.date, b.date)
    case ByAmount =>
      AmountOf(a.amount).Some? && AmountOf(b.amount).Some?
      && AmountOf(a.amount).value < AmountOf(b.amount).value
    case ByStatus => StrLess(StatusText(a.status), StatusText(b.status))
  }

  /** The comparator handed to Array.prototype.sort. */
  function Compare(cfg: SortConfig, a: Bid, b: Bid): (r: int)
    ensures -1 <= r <= 1
    ensures r == 0 <==> SameKey(cfg.key, a, b)
  {
    if KeyLess(cfg.key, a, b) then (if cfg.direction == Ascending then -1 else 1)
    else if KeyLess(cfg.key, b, a) then (if cfg.direction == Ascending then 1 else -1)
    else 0
  }

  /** a may stand before b in the sorted list. */
  predicate Precedes(cfg: SortConfig, a: Bid, b: Bid)
  {
    Compare(cfg, a, b) <= 0
  }

  /** Neither key is below the other. */
  predicate SameKey(key: SortKey, a: Bid, b: Bid)
  {
    !KeyLess(key, a, b) && !KeyLess(key, b, a)
  }

  /** The bids whose key equals x's key. */
  function KeyClass(key: SortKey, x: Bid): Bid -> bool
  {
    b => SameKey(key, b, x)
  }

  /** The keys of s can be ordered: with the amount key, every amount reads as a number. */
  predicate Comparable(key: SortKey, s: seq<Bid>)
  {
    key == ByAmount ==> forall b :: b in s ==> AmountOf(b.amount).Some?
  }

  predicate Sorted(cfg: SortConfig, s: seq<Bid>)
  {
    forall i, j :: 0 <= i < j < |s| ==> Precedes(cfg, s[i], s[j])
  }

  /** KeyLess is a strict weak order on comparable bids: irreflexive, asymmetric
      and negatively transitive. */
  lemma KeyLessWeakOrder(key: SortKey, a: Bid, b: Bid, c: Bid)
    requires Comparable(key, [a, b, c])
    ensures !KeyLess(key, a, a)
    ensures KeyLess(key, a, b) ==> !KeyLess(key, b, a)
    ensures KeyLess(key, a, c) ==> KeyLess(key, a, b) || KeyLess(key, b, c)
  {
    match key
    case ByProject =>
      StrLessIrreflexive(a.project);
      StrLessAsymmetric(a.project, b.project);
      StrLessTotal(a.project, b.project);
      StrLessTransitive(a.project, b.project, c.project);
      StrLessTransitive(b.project, a.project, c.project);
      StrLessTotal(b.project, c.project);
      StrLessTransitive(a.project, c.project, b.project);
    case ByStatus =>
      var sa, sb, sc := StatusText(a.status), StatusText(b.status), StatusText(c.status);
      StrLessIrreflexive(sa);
      StrLessAsymmetric(sa, sb);
      StrLessTotal(sa, sb);
      StrLessTransitive(sa, sc, sb);
      StrLessTotal(sb, sc);
      StrLessTransitive(sb, sa, sc);
    case _ =>
      assert a in [a, b, c] && b in [a, b, c] && c in [a, b, c];
  }

  /** Comparing in one order is the negation of comparing in the other. */
  lemma CompareFlips(cfg: SortConfig, a: Bid, b: Bid)
    ensures Compare(cfg, a, b) > 0 ==> Compare(cfg, b, a) < 0
  {
    if cfg.key == ByProject {
      StrLessAsymmetric(a.project, b.project);
    } else if cfg.key == ByStatus {
      StrLessAsymmetric(StatusText(a.status), StatusText(b.status));
    }
  }

  lemma PrecedesTransitive(cfg: SortConfig, a: Bid, b: Bid, c: Bid)
    requires Comparable(cfg.key, [a, b, c])
    ensures Precedes(cfg, a, b) && Precedes(cfg, b, c) ==> Precedes(cfg, a, c)
  {
    KeyLessWeakOrder(cfg.key, a, b, c);
    KeyLessWeakOrder(cfg.key, c, b, a);
    assert Comparable(cfg.key, [c, b, a]);
  }

  lemma SameKeyTransitive(key: SortKey, a: Bid, b: Bid, c: Bid)
    requires Comparable(key, [a, b, c])
    ensures SameKey(key, a, b) && SameKey(key, b, c) ==> SameKey(key, a, c)
  {
    KeyLessWeakOrder(key, a, b, c);
    assert Comparable(key, [c, b, a]);
    KeyLessWeakOrder(key, c, b, a);
  }

  /** Puts x before the first element of the sorted t it does not come after. */
  function Insert(cfg: SortConfig, x: Bid, t: seq<Bid>): (r: seq<Bid>)
    ensures |r| == |t| + 1
    ensures multiset(r) == multiset(t) + multiset{x}
  {
    if t == [] then [x]
    else if Compare(cfg, x, t[0]) > 0 then
      assert t == [t[0]] + t[1..];
      [t[0]] + Insert(cfg, x, t[1..])
    else [x] + t
  }

  /** A stable insertion sort by the comparator. */
  function InsertionSort(cfg: SortConfig, s: seq<Bid>): (r: seq<Bid>)
    ensures |r| == |s|
    ensures multiset(r) == multiset(s)
  {
    if s == [] then []
    else
      assert s == [s[0]] + s[1..];
      Insert(cfg, s[0], InsertionSort(cfg, s[1..]))
  }

  /** sortData: the input itself when no key is chosen, otherwise a sorted copy
      holding the same bids. */
  function SortData(data: seq<Bid>, cfg: SortConfig): (r: seq<Bid>)
    ensures cfg.key == Unsorted ==> r == data
    ensures multiset(r) == multiset(data) && |r| == |data|
    ensures forall b :: b in r <==> b in data
  {
    var r := if cfg.key == Unsorted then data else InsertionSort(cfg, data);
    assert forall b :: b in r <==> b in multiset(r);
    assert forall b :: b in data <==> b in multiset(data);
    r
  }

  function PrecedesTest(cfg: SortConfig): (Bid, Bid) -> bool
  {
    (a, b) => Precedes(cfg, a, b)
  }

  /** A sorted list stays sorted with a first element that precedes all of it. */
  lemma SortedCons(cfg: SortConfig, a: Bid, rest: seq<Bid>)
    requires Sorted(cfg, rest)
    requires forall j :: 0 <= j < |rest| ==> Precedes(cfg, a, rest[j])
    ensures Sorted(cfg, [a] + rest)
  {
    var le := PrecedesTest(cfg);
    assert SortedBy(rest, le);
    SortedByCons(le, a, rest);
    var r := [a] + rest;
    assert forall i, j :: 0 <= i < j < |r| ==> le(r[i], r[j]);
  }

  lemma {:induction false} InsertSorted(cfg: SortConfig, x: Bid, t: seq<Bid>)
    requires Sorted(cfg, t) && Comparable(cfg.key, t + [x])
    ensures Sorted(cfg, Insert(cfg, x, t))
  {
    if t == [] {
      assert Insert(cfg, x, t) == [x];
    } else if Compare(cfg, x, t[0]) > 0 {
      var tail := t[1..];
      assert Sorted(cfg, tail) by {
        forall i, j | 0 <= i < j < |tail| ensures Precedes(cfg, tail[i], tail[j]) {
          assert tail[i] == t[i + 1] && tail[j] == t[j + 1];
        }
      }
      assert Comparable(cfg.key, tail + [x]) by {
        forall b | b in tail + [x] ensures b in t + [x] { }
      }
      InsertSorted(cfg, x, tail);
      var rest := Insert(cfg, x, tail);
      CompareFlips(cfg, x, t[0]);
      forall j | 0 <= j < |rest| ensures Precedes(cfg, t[0], rest[j]) {
        assert rest[j] in multiset(rest);
        if rest[j] != x {
          assert rest[j] in tail;
          var k :| 0 <= k < |tail| && tail[k] == rest[j];
          assert t[k + 1] == rest[j];
        }
      }
      SortedCons(cfg, t[0], rest);
      assert Insert(cfg, x, t) == [t[0]] + rest;
    } else {
      forall j | 0 <= j < |t| ensures Precedes(cfg, x, t[j]) {
        if j > 0 {
          assert Precedes(cfg, t[0], t[j]);
          assert Comparable(cfg.key, [x, t[0], t[j]]) by {
            assert x in t + [x] && t[0] in t + [x] && t[j] in t + [x];
          }
          PrecedesTransitive(cfg, x, t[0], t[j]);
        }
      }
      SortedCons(cfg, x, t);
      assert Insert(cfg, x, t) == [x] + t;
    }
  }

  lemma {:induction false} InsertionSortSorted(cfg: SortConfig, s: seq<Bid>)
    requires Comparable(cfg.key, s)
    ensures Sorted(cfg, InsertionSort(cfg, s))
  {
    if s != [] {
      InsertionSortSorted(cfg, s[1..]);
      var t := InsertionSort(cfg, s[1..]);
      assert Comparable(cfg.key, t + [s[0]]) by {
        forall b | b in t + [s[0]] ensures b in s {
          if b != s[0] { assert b in multiset(t); }
        }
      }
      InsertSorted(cfg, s[0], t);
    }
  }

  /** With a key chosen, sortData orders every pair of bids by the comparator. */
  lemma SortDataSorted(data: seq<Bid>, cfg: SortConfig)
    requires cfg.key != Unsorted && Comparable(cfg.key, data)
    ensures Sorted(cfg, SortData(data, cfg))
  {
    InsertionSortSorted(cfg, data);
  }

  /** Sorting by amount orders bids by the number the amount text reads as:
      nondecreasing when ascending, nonincreasing when descending. */
  lemma SortByAmountOrder(data: seq<Bid>, dir: Direction)
    requires forall b :: b in data ==> AmountOf(b.amount).Some?
    ensures var r := SortData(data, SortConfig(ByAmount, dir));
      forall i, j :: 0 <= i < j < |r| ==>
        AmountOf(r[i].amount).Some? && AmountOf(r[j].amount).Some? &&
        (if dir == Ascending then AmountOf(r[i].amount).value <= AmountOf(r[j].amount).value
         else AmountOf(r[i].amount).value >= AmountOf(r[j].amount).value)
  {
    var cfg := SortConfig(ByAmount, dir);
    SortDataSorted(data, cfg);
    var r := SortData(data, cfg);
    forall i, j | 0 <= i < j < |r| ensures AmountOf(r[i].amount).Some? && AmountOf(r[j].amount).Some? {
      assert r[i] in multiset(data) && r[j] in multiset(data);
    }
  }

  /** Sorting by date orders bids by calendar day. */
  lemma SortByDateOrder(data: seq<Bid>, dir: Direction)
    ensures var r := SortData(data, SortConfig(ByDate, dir));
      forall i, j :: 0 <= i < j < |r| ==>
        if dir == Ascending then DateLe(r[i].date, r[j].date) else DateLe(r[j].date, r[i].date)
  {
    SortDataSorted(data, SortConfig(ByDate, dir));
  }

  /** Sorting by project orders bids by the string order of the names. */
  lemma SortByProjectOrder(data: seq<Bid>, dir: Direction)
    ensures var r := SortData(data, SortConfig(ByProject, dir));
      forall i, j :: 0 <= i < j < |r| ==>
        if dir == Ascending then !StrLess(r[j].project, r[i].project)
        else !StrLess(r[i].project, r[j].project)
  {
    SortDataSorted(data, SortConfig(ByProject, dir));
    var r := SortData(data, SortConfig(ByProject, dir));
    forall i, j | 0 <= i < j < |r| {
      StrLessAsymmetric(r[i].project, r[j].project);
    }
  }

  lemma {:induction false} InsertStable(cfg: SortConfig, y: Bid, t: seq<Bid>, x: Bid)
    requires Comparable(cfg.key, t + [y, x])
    ensures Filter(Insert(cfg, y, t), KeyClass(cfg.key, x)) == Filter([y] + t, KeyClass(cfg.key, x))
  {
    var p := KeyClass(cfg.key, x);
    assert ([y] + t)[1..] == t;
    if t != [] && Compare(cfg, y, t[0]) > 0 {
      var tail := t[1..];
      assert Comparable(cfg.key, tail + [y, x]) by {
        forall b | b in tail + [y, x] ensures b in t + [y, x] { }
      }
      InsertStable(cfg, y, tail, x);
      assert ([t[0]] + Insert(cfg, y, tail))[1..] == Insert(cfg, y, tail);
      assert ([y] + tail)[1..] == tail;
      assert ([t[0]] + tail) == t;
      if p(y) && p(t[0]) {
        assert Comparable(cfg.key, [y, x, t[0]]) by {
          assert y in t + [y, x] && x in t + [y, x] && t[0] in t + [y, x];
        }
        SameKeyTransitive(cfg.key, y, x, t[0]);
        assert false;
      }
    }
  }

  lemma {:induction false} InsertionSortStable(cfg: SortConfig, s: seq<Bid>, x: Bid)
    requires Comparable(cfg.key, s + [x])
    ensures Filter(InsertionSort(cfg, s), KeyClass(cfg.key, x)) == Filter(s, KeyClass(cfg.key, x))
  {
    if s != [] {
      var tail := s[1..];
      assert Comparable(cfg.key, tail + [x]) by {
        forall b | b in tail + [x] ensures b in s + [x] { }
      }
      InsertionSortStable(cfg, tail, x);
      var t := InsertionSort(cfg, tail);
      assert Comparable(cfg.key, t + [s[0], x]) by {
        forall b | b in t + [s[0], x] ensures b in s + [x] {
          if b in t { assert b in multiset(tail); }
        }
      }
      InsertStable(cfg, s[0], t, x);
      FilterConsCongruent(s[0], t, tail, KeyClass(cfg.key, x));
      assert s == [s[0]] + tail;
    }
  }

  /** sortData is stable: the bids whose key equals that of a given bid keep
      their input order. */
  lemma SortDataStable(data: seq<Bid>, cfg: SortConfig, x: Bid)
    requires x in data && Comparable(cfg.key, data)
    ensures Filter(SortData(data, cfg), KeyClass(cfg.key, x)) == Filter(data, KeyClass(cfg.key, x))
  {
    if cfg.key != Unsorted {
      assert Comparable(cfg.key, data + [x]) by {
        forall b | b in data + [x] ensures b in data { }
      }
      InsertionSortStable(cfg, data, x);
    }
  }

  // ---------------------------------------------------------------------------
  // The view's state

  const BidsPerPage := 5

  /** The sort configuration the view starts with: no key, ascending. */
  const NoSort := SortConfig(Unsorted, Ascending)

  /** requestSort's choice: the chosen key, descending only when the list is
      already sorted ascending by that key. */
  function NextSort(current: SortConfig, key: SortKey): (r: SortConfig)
    ensures r.key == key
    ensures r.direction == Descending <==> current == SortConfig(key, Ascending)
  {
    if current.key == key && current.direction == Ascending then SortConfig(key, Descending)
    else SortConfig(key, Ascending)
  }

  /** Asking for the same key again and again alternates between the two
      directions: the second request differs from the first and the third
      repeats it. */
  lemma NextSortAlternates(current: SortConfig, key: SortKey)
    ensures NextSort(NextSort(current, key), key) != NextSort(current, key)
    ensures NextSort(NextSort(NextSort(current, key), key), key) == NextSort(current, key)
  {
  }

  /** The ten bid records the view holds. */
  function SeedBids(): seq<Bid>
  {
    [ Bid(1, "Project Alpha", Date(2025, 1, 5), "$500", Active),
      Bid(2, "Project Beta", Date(2025, 1, 6), "$750", Completed),
      Bid(3, "Project Gamma", Date(2025, 1, 7), "$600", Active),
      Bid(4, "Project Delta", Date(2025, 1, 8), "$900", Completed),
      Bid(5, "Project Epsilon", Date(2025, 1, 9), "$450", Active),
      Bid(6, "Project Zeta", Date(2025, 1, 10), "$800", Completed),
      Bid(7, "Project Eta", Date(2025, 1, 11), "$700", Active),
      Bid(8, "Project Theta", Date(2025, 1, 12), "$650", Completed),
      Bid(9, "Project Iota", Date(2025, 1, 13), "$550", Active),
      Bid(10, "Project Kappa", Date(2025, 1, 14), "$950", Completed) ]
  }

  /** The stored amounts are the dollar texts of their values. */
  lemma SeedDollarTexts()
    ensures DollarText(500) == "$500"
    ensures DollarText(750) == "$750"
    ensures DollarText(600) == "$600"
    ensures DollarText(900) == "$900"
    ensures DollarText(450) == "$450"
    ensures DollarText(800) == "$800"
    ensures DollarText(700) == "$700"
    ensures DollarText(650) == "$650"
    ensures DollarText(550) == "$550"
    ensures DollarText(950) == "$950"
  {
    HundredsText(5, 0, 0);
    HundredsText(7, 5, 0);
    HundredsText(6, 0, 0);
    HundredsText(9, 0, 0);
    HundredsText(4, 5, 0);
    HundredsText(8, 0, 0);
    HundredsText(7, 0, 0);
    HundredsText(6, 5, 0);
    HundredsText(5, 5, 0);
    HundredsText(9, 5, 0);
  }

  /** A three-digit amount reads as "$" and its three digits. */
  lemma HundredsText(h: nat, t: nat, u: nat)
    requires 1 <= h < 10 && t < 10 && u < 10
    ensures DollarText(100 * h + 10 * t + u) == ['$', DigitChar(h), DigitChar(t), DigitChar(u)]
  {
    var n := 100 * h + 10 * t + u;
    assert n / 10 == 10 * h + t && n % 10 == u;
    assert (n / 10) / 10 == h && (n / 10) % 10 == t;
    assert DecimalText(n / 10) == [DigitChar(h), DigitChar(t)];
  }

  /** Every stored amount is a whole-dollar amount, so every one of them reads
      as a number and sorting by amount orders them all. */
  lemma SeedAmountsAreNumbers()
    ensures Comparable(ByAmount, SeedBids())
  {
    SeedDollarTexts();
    var s := SeedBids();
    var values: seq<nat> := [500, 750, 600, 900, 450, 800, 700, 650, 550, 950];
    forall i | 0 <= i < |s| ensures AmountOf(s[i].amount).Some? {
      assert s[i].amount == DollarText(values[i]);
      AmountOfDollarText(values[i]);
    }
  }

  class BidsList {
    const bids: seq<Bid>
    var filterStatus: StatusFilter
    var filterProject: string
    var filterAmountMin: Option<int>
    var filterAmountMax: Option<int>
    var filterDateStart: Option<Date>
    var filterDateEnd: Option<Date>
    var currentPage: int
    var sortConfig: SortConfig

    /** No filter, no sort, first page. */
    predicate AtDefaults()
      reads this
    {
      CurrentFilters() == NoFilters && sortConfig == NoSort && currentPage == 1
    }

    constructor ()
      ensures bids == SeedBids() && AtDefaults()
    {
      bids := SeedBids();
      filterStatus := All;
      filterProject := "";
      filterAmountMin := None;
      filterAmountMax := None;
      filterDateStart := None;
      filterDateEnd := None;
      currentPage := 1;
      sortConfig := NoSort;
    }

    function CurrentFilters(): Filters
      reads this
    {
      Filters(filterStatus, filterProject, filterAmountMin, filterAmountMax, filterDateStart, filterDateEnd)
    }

    /** The bids that pass the filters, sorted by the current configuration;
        unsorted, they keep the order of the records. */
    function FilteredAndSortedBids(): (r: seq<Bid>)
      reads this
      ensures forall b :: b in r <==> b in bids && Visible(CurrentFilters(), b)
      ensures |r| <= |bids|
      ensures sortConfig.key == Unsorted ==> Subsequence(r, bids)
      ensures CurrentFilters() == NoFilters && sortConfig.key == Unsorted ==> r == bids
    {
      DefaultViewIsRecords(bids, CurrentFilters(), sortConfig);
      SortData(ApplyFilters(bids, CurrentFilters()), sortConfig)
    }

    /** Math.ceil(filtered length / 5): the fewest pages of five that hold the list. */
    function TotalPages(): (r: nat)
      reads this
      ensures r * BidsPerPage >= |FilteredAndSortedBids()|
      ensures (r - 1) * BidsPerPage < |FilteredAndSortedBids()|
    {
      Paging.CeilDiv(|FilteredAndSortedBids()|, BidsPerPage)
    }

    /** The page buttons are drawn when there is more than one page, that is
        when more than five bids pass the filters. */
    function ShowsPageButtons(): (r: bool)
      reads this
      ensures r <==> |FilteredAndSortedBids()| > BidsPerPage
    {
      Paging.SeveralPagesIff(|FilteredAndSortedBids()|, BidsPerPage);
      TotalPages() > 1
    }

    /** The rows of the current page: at most five, the slice of the sorted
        list that page covers, non-empty for every page from 1 to the last and
        empty past the last. */
    function CurrentBids(): (r: seq<Bid>)
      reads this
      ensures |r| <= BidsPerPage
      ensures
        var all := FilteredAndSortedBids();
        currentPage >= 1 ==>
          r == all[Paging.Min((currentPage - 1) * BidsPerPage, |all|)..Paging.Min((currentPage - 1) * BidsPerPage + BidsPerPage, |all|)]
      ensures currentPage >= 1 ==> (r != [] <==> currentPage <= TotalPages())
    {
      Paging.Page(FilteredAndSortedBids(), currentPage, BidsPerPage)
    }

    /** requestSort: sort by the key, flipping to descending on a second request. */
    method RequestSort(key: SortKey)
      modifies this`sortConfig
      ensures sortConfig == NextSort(old(sortConfig), key)
    {
      var direction := Ascending;
      if sortConfig.key == key && sortConfig.direction == Ascending {
        direction := Descending;
      }
      sortConfig := SortConfig(key, direction);
    }

    /** handlePageChange: go to the page whose button was pressed. */
    method HandlePageChange(pageNumber: int)
      modifies this`currentPage
      ensures currentPage == pageNumber
    {
      currentPage := pageNumber;
    }

    /** resetFilters: every filter cleared, the sort removed and back to page 1,
        so the first page shows the first five records in their order. */
    method ResetFilters()
      modifies this
      ensures AtDefaults()
      ensures FilteredAndSortedBids() == bids
    {
      filterStatus := All;
      filterProject := "";
      filterAmountMin := None;
      filterAmountMax := None;
      filterDateStart := None;
      filterDateEnd := None;
      sortConfig := NoSort;
      currentPage := 1;
      assert CurrentFilters() == NoFilters;
    }

    // The six inputs write their field and nothing else; in particular the
    // current page stays where it was, even when fewer bids now pass.

    method SetFilterStatus(v: StatusFilter)
      modifies this`filterStatus
      ensures filterStatus == v
    {
      filterStatus := v;
    }

    method SetFilterProject(v: string)
      modifies this`filterProject
      ensures filterProject == v
    {
      filterProject := v;
    }

    method SetFilterAmountMin(v: Option<int>)
      modifies this`filterAmountMin
      ensures filterAmountMin == v
    {
      filterAmountMin := v;
    }

    method SetFilterAmountMax(v: Option<int>)
      modifies this`filterAmountMax
      ensures filterAmountMax == v
    {
      filterAmountMax := v;
    }

    method SetFilterDateStart(v: Option<Date>)
      modifies this`filterDateStart
      ensures filterDateStart == v
    {
      filterDateStart := v;
    }

    /** The end picker offers no day before the picked start. */
    method SetFilterDateEnd(v: Option<Date>)
      requires v.Some? && filterDateStart.Some? ==> DateLe(filterDateStart.value, v.value)
      modifies this`filterDateEnd
      ensures filterDateEnd == v
    {
      filterDateEnd := v;
    }
  }
}
