/**
 * The orders page of `src/pages/Orders.jsx`: orders are loaded (all of them,
 * or those of one status) and then narrowed client-side to an inclusive
 * creation-date range whose upper end is stretched to 23:59:59 of its day.
 */
module Orders {
  import opened Common

  /** The six order statuses the backend uses. */
  const OrderStatuses: seq<string> := [
    "PAYMENT_PENDING", "PAID", "PROCESSING", "COMPLETED", "PROVIDER_FAILED", "CANCELLED"
  ]

  /** The status filter buttons: "ALL" first, then every order status. */
  const StatusOptions: seq<string> := ["ALL"] + OrderStatuses

  /**
   * An order as the backend returns it. `createdAt` is the instant that
   * `new Date(createdAt)` gives, in milliseconds, or None when that is an
   * Invalid Date (an unparsable string or `undefined`), whose every
   * comparison is false. A `null` creation time is the epoch, `Some(0)`.
   */
  datatype Order = Order(
    id: int,
    serviceName: string,
    status: string,
    price: real,
    telegramId: int,
    createdAt: Option<int>)

  /** Milliseconds from midnight to 23:59:59 of the same day. */
  const EndOfDayOffset: int := 86_399_000

  /**
   * A parsed filter bound: no date typed (the field is the empty string), a
   * date that does not parse (an Invalid Date object, which is still truthy),
   * or an instant.
   */
  datatype Bound = Unset | Unparsable | At(time: int)

  /** `fromDate ? new Date(fromDate) : null`; `parseDay` is the browser's date parser. */
  function FromBound(fromDate: string, parseDay: string -> Option<int>): (b: Bound)
    ensures b == Unset <==> fromDate == ""
    ensures fromDate != "" && parseDay(fromDate).Some? ==> b == At(parseDay(fromDate).value)
  {
    if fromDate == "" then Unset
    else match parseDay(fromDate)
      case None => Unparsable
      case Some(day) => At(day)
  }

  /** `toDate ? new Date(toDate + "T23:59:59") : null`. */
  function ToBound(toDate: string, parseDay: string -> Option<int>): (b: Bound)
    ensures b == Unset <==> toDate == ""
    ensures toDate != "" && parseDay(toDate).Some? ==> b == At(parseDay(toDate).value + EndOfDayOffset)
  {
    if toDate == "" then Unset
    else match parseDay(toDate)
      case None => Unparsable
      case Some(day) => At(day + EndOfDayOffset)
  }

  /** The filter callback: reject when strictly before `from` or strictly after `to`. */
  predicate Kept(created: Option<int>, from: Bound, to: Bound) {
    if from.At? && created.Some? && created.value < from.time then false
    else if to.At? && created.Some? && created.value > to.time then false
    else true
  }

  /**
   * The callback keeps an order whose creation time is an Invalid Date, and
   * otherwise exactly those inside the bounds, both ends included.
   */
  lemma KeptWithinBounds(created: Option<int>, from: Bound, to: Bound)
    ensures created.None? ==> Kept(created, from, to)
    ensures created.Some? ==>
              (Kept(created, from, to) <==>
               (from.At? ==> from.time <= created.value) && (to.At? ==> created.value <= to.time))
  {
  }

  /** `orders.filter(...)` with the callback above. */
  function FilterOrders(orders: seq<Order>, from: Bound, to: Bound): (kept: seq<Order>)
    ensures |kept| <= |orders|
    ensures multiset(kept) <= multiset(orders)
    ensures forall i :: 0 <= i < |kept| ==> Kept(kept[i].createdAt, from, to)
    ensures forall o :: o in orders && Kept(o.createdAt, from, to) ==> o in kept
    ensures forall o :: multiset(kept)[o] == if Kept(o.createdAt, from, to) then multiset(orders)[o] else 0
    decreases |orders|
  {
    if orders == [] then []
    else
      var rest := FilterOrders(orders[1..], from, to);
      var kept := if Kept(orders[0].createdAt, from, to) then [orders[0]] + rest else rest;
      FilterCounts(orders, rest, kept, from, to);
      kept
  }

  /**
   * One step of the filter keeps each order's multiplicity when the callback
   * accepts it and drops it otherwise; the other facts about the result
   * follow from those multiplicities.
   */
  lemma FilterCounts(orders: seq<Order>, rest: seq<Order>, kept: seq<Order>, from: Bound, to: Bound)
    requires orders != [] && |rest| <= |orders[1..]|
    requires forall o :: multiset(rest)[o] == if Kept(o.createdAt, from, to) then multiset(orders[1..])[o] else 0
    requires kept == if Kept(orders[0].createdAt, from, to) then [orders[0]] + rest else rest
    ensures |kept| <= |orders|
    ensures multiset(kept) <= multiset(orders)
    ensures forall i :: 0 <= i < |kept| ==> Kept(kept[i].createdAt, from, to)
    ensures forall o :: o in orders && Kept(o.createdAt, from, to) ==> o in kept
    ensures forall o :: multiset(kept)[o] == if Kept(o.createdAt, from, to) then multiset(orders)[o] else 0
  {
    assert orders == [orders[0]] + orders[1..];
    assert multiset(orders) == multiset{orders[0]} + multiset(orders[1..]);
    assert multiset(kept) == if Kept(orders[0].createdAt, from, to) then multiset{orders[0]} + multiset(rest) else multiset(rest);
    forall i | 0 <= i < |kept|
      ensures Kept(kept[i].createdAt, from, to)
    {
      assert multiset(kept)[kept[i]] > 0;
    }
    forall o | o in orders && Kept(o.createdAt, from, to)
      ensures o in kept
    {
      assert multiset(kept)[o] > 0;
    }
  }

  /** `applyDateFilter`: both fields empty shows the loaded list as it is. */
  function DateFilter(orders: seq<Order>, fromDate: string, toDate: string,
                      parseDay: string -> Option<int>): (shown: seq<Order>)
    ensures fromDate == "" && toDate == "" ==> shown == orders
    ensures forall o :: multiset(shown)[o] ==
              if Kept(o.createdAt, FromBound(fromDate, parseDay), ToBound(toDate, parseDay))
              then multiset(orders)[o] else 0
  {
    if fromDate == "" && toDate == "" then orders
    else FilterOrders(orders, FromBound(fromDate, parseDay), ToBound(toDate, parseDay))
  }

  /** `a` is `b` with some elements deleted, the rest in their original order. */
  predicate IsSubsequence<T(==)>(a: seq<T>, b: seq<T>)
    decreases |b|
  {
    if a == [] then true
    else if b == [] then false
    else (a[0] == b[0] && IsSubsequence(a[1..], b[1..])) || IsSubsequence(a, b[1..])
  }

  /** The filter only deletes: what it keeps stays in the loaded order. */
  lemma {:induction false} FilterIsSubsequence(orders: seq<Order>, from: Bound, to: Bound)
    ensures IsSubsequence(FilterOrders(orders, from, to), orders)
    decreases |orders|
  {
    if orders != [] {
      var rest := FilterOrders(orders[1..], from, to);
      FilterIsSubsequence(orders[1..], from, to);
      if Kept(orders[0].createdAt, from, to) {
        assert ([orders[0]] + rest)[1..] == rest;
      } else if rest != [] {
        assert IsSubsequence(rest, orders[1..]);
      }
    }
  }

  /** The early return for two empty fields agrees with running the filter. */
  lemma DateFilterIsFilter(orders: seq<Order>, fromDate: string, toDate: string,
                           parseDay: string -> Option<int>)
    ensures DateFilter(orders, fromDate, toDate, parseDay)
         == FilterOrders(orders, FromBound(fromDate, parseDay), ToBound(toDate, parseDay))
  {
    if fromDate == "" && toDate == "" {
      KeepAllFilter(orders, Unset, Unset);
    }
  }

  /** Both date fields empty: the filtered list is exactly the loaded list. */
  lemma NoDatesShowsAll(orders: seq<Order>, parseDay: string -> Option<int>)
    ensures DateFilter(orders, "", "", parseDay) == orders
  {
  }

  /** The shown list is a subsequence of the loaded list. */
  lemma DateFilterIsSubsequence(orders: seq<Order>, fromDate: string, toDate: string,
                                parseDay: string -> Option<int>)
    ensures IsSubsequence(DateFilter(orders, fromDate, toDate, parseDay), orders)
  {
    DateFilterIsFilter(orders, fromDate, toDate, parseDay);
    FilterIsSubsequence(orders, FromBound(fromDate, parseDay), ToBound(toDate, parseDay));
  }

  /**
   * Soundness: every shown order with a parsable creation time lies at or
   * after the start of the `from` day and at or before 23:59:59 of the `to` day.
   */
  lemma DateFilterSound(orders: seq<Order>, fromDate: string, toDate: string,
                        parseDay: string -> Option<int>, o: Order)
    requires o in DateFilter(orders, fromDate, toDate, parseDay)
    requires o.createdAt.Some?
    ensures o in orders
    ensures fromDate != "" && parseDay(fromDate).Some? ==> o.createdAt.value >= parseDay(fromDate).value
    ensures toDate != "" && parseDay(toDate).Some? ==> o.createdAt.value <= parseDay(toDate).value + EndOfDayOffset
  {
    var from, to := FromBound(fromDate, parseDay), ToBound(toDate, parseDay);
    DateFilterIsFilter(orders, fromDate, toDate, parseDay);
    var shown := FilterOrders(orders, from, to);
    var i :| 0 <= i < |shown| && shown[i] == o;
    assert Kept(o.createdAt, from, to);
    assert multiset(shown)[o] > 0;
  }

  /**
   * Completeness: a loaded order is dropped only when it parses and lies
   * strictly before the `from` day or strictly after 23:59:59 of the `to` day.
   */
  lemma DateFilterComplete(orders: seq<Order>, fromDate: string, toDate: string,
                           parseDay: string -> Option<int>, o: Order)
    requires o in orders
    requires !(fromDate != "" && parseDay(fromDate).Some? && o.createdAt.Some?
               && o.createdAt.value < parseDay(fromDate).value)
    requires !(toDate != "" && parseDay(toDate).Some? && o.createdAt.Some?
               && o.createdAt.value > parseDay(toDate).value + EndOfDayOffset)
    ensures o in DateFilter(orders, fromDate, toDate, parseDay)
  {
    DateFilterIsFilter(orders, fromDate, toDate, parseDay);
  }

  /** An order whose creation time does not parse is never excluded. */
  lemma UnparsableCreatedAtKept(orders: seq<Order>, fromDate: string, toDate: string,
                                parseDay: string -> Option<int>, o: Order)
    requires o in orders && o.createdAt.None?
    ensures o in DateFilter(orders, fromDate, toDate, parseDay)
  {
    DateFilterComplete(orders, fromDate, toDate, parseDay, o);
  }

  /** A date field that does not parse excludes nothing. */
  lemma UnparsableBoundsKeepAll(orders: seq<Order>, fromDate: string, toDate: string,
                                parseDay: string -> Option<int>)
    requires fromDate == "" || parseDay(fromDate).None?
    requires toDate == "" || parseDay(toDate).None?
    ensures DateFilter(orders, fromDate, toDate, parseDay) == orders
  {
    var from, to := FromBound(fromDate, parseDay), ToBound(toDate, parseDay);
    DateFilterIsFilter(orders, fromDate, toDate, parseDay);
    KeepAllFilter(orders, from, to);
  }

  /** When the callback accepts every order, `filter` returns the list unchanged. */
  lemma {:induction false} KeepAllFilter(orders: seq<Order>, from: Bound, to: Bound)
    requires forall i :: 0 <= i < |orders| ==> Kept(orders[i].createdAt, from, to)
    ensures FilterOrders(orders, from, to) == orders
    decreases |orders|
  {
    if orders != [] {
      var rest := orders[1..];
      forall i | 0 <= i < |rest|
        ensures Kept(rest[i].createdAt, from, to)
      {
        assert rest[i] == orders[i + 1];
      }
      KeepAllFilter(rest, from, to);
      FilterKeepsHead(orders, from, to);
    }
  }

  /** An accepted first order is followed by the filtered rest. */
  lemma FilterKeepsHead(orders: seq<Order>, from: Bound, to: Bound)
    requires orders != [] && Kept(orders[0].createdAt, from, to)
    requires FilterOrders(orders[1..], from, to) == orders[1..]
    ensures FilterOrders(orders, from, to) == orders
  {
    assert orders == [orders[0]] + orders[1..];
  }

  /** Which backend read `loadOrders` issues. */
  datatype OrdersRequest = AllOrders | OrdersByStatus(status: string)

  /** `status === "ALL" ? getAllOrders() : getOrdersByStatus(status)`. */
  function RequestFor(status: string): (r: OrdersRequest)
    ensures r == AllOrders <==> status == "ALL"
    ensures r != AllOrders ==> r == OrdersByStatus(status)
  {
    if status == "ALL" then AllOrders else OrdersByStatus(status)
  }

  /** The seven buttons issue seven different requests, one per order status besides "ALL". */
  lemma StatusOptionsRequests()
    ensures |StatusOptions| == 7 && StatusOptions[0] == "ALL"
    ensures forall i :: 1 <= i < |StatusOptions| ==> RequestFor(StatusOptions[i]) == OrdersByStatus(OrderStatuses[i - 1])
    ensures forall i, j :: 0 <= i < j < |StatusOptions| ==> RequestFor(StatusOptions[i]) != RequestFor(StatusOptions[j])
  {
  }

  // ---------------------------------------------------------------------
  // Status badge

  /** The badge colour of each known order status. */
  const BadgeClasses: map<string, string> := map[
    "PAYMENT_PENDING" := "bg-yellow-100 text-yellow-700",
    "PAID" := "bg-blue-100 text-blue-700",
    "PROCESSING" := "bg-indigo-100 text-indigo-700",
    "COMPLETED" := "bg-green-100 text-green-700",
    "PROVIDER_FAILED" := "bg-orange-100 text-orange-700",
    "CANCELLED" := "bg-red-100 text-red-700"
  ]

  /** The colour of a status the table does not list. */
  const FallbackClass: string := "bg-gray-200 text-gray-700"

  /** The index of the first underscore, or `|s|` when there is none. */
  function FirstUnderscore(s: string): (i: nat)
    ensures i <= |s|
    ensures i < |s| ==> s[i] == '_'
    ensures forall j :: 0 <= j < i ==> s[j] != '_'
    decreases |s|
  {
    if s == [] || s[0] == '_' then 0 else 1 + FirstUnderscore(s[1..])
  }

  /** `s.replace("_", " ")`: a string pattern replaces only its first occurrence. */
  function Label(s: string): (text: string)
    ensures |text| == |s|
    ensures forall j :: 0 <= j < |s| ==> text[j] == (if j == FirstUnderscore(s) then ' ' else s[j])
    decreases |s|
  {
    if s == [] then []
    else if s[0] == '_' then [' '] + s[1..]
    else [s[0]] + Label(s[1..])
  }

  /** A badge: its colour classes and its text. */
  datatype Badge = Badge(classes: string, text: string)

  /** `StatusBadge`: `map[status] || fallback`, with the status as its label. */
  function StatusBadge(status: string): (b: Badge)
    ensures status in BadgeClasses ==> b.classes == BadgeClasses[status]
    ensures status !in BadgeClasses ==> b.classes == FallbackClass
    ensures b.text == Label(status)
  {
    var cls := if status in BadgeClasses && BadgeClasses[status] != "" then BadgeClasses[status] else FallbackClass;
    Badge(cls, Label(status))
  }

  /**
   * A status with a single underscore, such as "PAYMENT_PENDING" or
   * "PROVIDER_FAILED", is shown with a space in its place.
   */
  lemma SingleUnderscoreLabel(p: string, q: string)
    requires forall j :: 0 <= j < |p| ==> p[j] != '_'
    ensures Label(p + "_" + q) == p + " " + q
  {
    var tail := "_" + q;
    assert tail[0] == '_' && tail[1..] == q;
    assert Label(tail) == " " + q;
    LabelSkipsPrefix(p, tail);
    assert p + "_" + q == p + tail;
    assert p + " " + q == p + (" " + q);
  }

  /** Characters before the first underscore pass through the label unchanged. */
  lemma {:induction false} LabelSkipsPrefix(p: string, s: string)
    requires forall j :: 0 <= j < |p| ==> p[j] != '_'
    ensures Label(p + s) == p + Label(s)
    decreases |p|
  {
    if p != [] {
      var ps := p + s;
      assert ps[0] == p[0] && ps[0] != '_';
      assert ps[1..] == p[1..] + s;
      assert Label(ps) == [p[0]] + Label(ps[1..]);
      LabelSkipsPrefix(p[1..], s);
      assert [p[0]] + (p[1..] + Label(s)) == p + Label(s);
    } else {
      assert p + s == s;
    }
  }

  // ---------------------------------------------------------------------
  // The page component's state

  /** The `Orders` component's state and the reads it has issued. */
  class OrdersPage {
    var orders: seq<Order>
    var filteredOrders: seq<Order>
    var status: string
    var loading: bool
    var fromDate: string
    var toDate: string
    /** Every backend read issued by `loadOrders`, oldest first. */
    var requests: seq<OrdersRequest>
    /** How many failures were written to the console. */
    var errorsLogged: nat
    /** The browser's parser for a `YYYY-MM-DD` date field. */
    const parseDay: string -> Option<int>

    constructor (parseDay: string -> Option<int>)
      ensures orders == [] && filteredOrders == [] && status == "ALL" && loading
      ensures fromDate == "" && toDate == "" && requests == [] && errorsLogged == 0
      ensures this.parseDay == parseDay
    {
      orders, filteredOrders, status, loading := [], [], "ALL", true;
      fromDate, toDate := "", "";
      requests, errorsLogged := [], 0;
      this.parseDay := parseDay;
    }

    /**
     * `loadOrders`: issues the read chosen by `status`; a response replaces
     * `orders`, a failure is logged and leaves it; `loading` ends false either way.
     */
    method LoadOrders(response: Response<seq<Order>>)
      modifies this`loading, this`requests, this`orders, this`errorsLogged
      ensures requests == old(requests) + [RequestFor(status)]
      ensures !loading
      ensures response.Ok? ==> orders == response.data && errorsLogged == old(errorsLogged)
      ensures response.Failed? ==> orders == old(orders) && errorsLogged == old(errorsLogged) + 1
    {
      loading := true;
      if status == "ALL" {
        requests := requests + [AllOrders];
      } else {
        requests := requests + [OrdersByStatus(status)];
      }
      match response {
        case Ok(data) =>
          orders := data;
        case Failed =>
          errorsLogged := errorsLogged + 1;
      }
      loading := false;
    }

    /** `applyDateFilter`: recomputes the shown list from `orders` and the two fields. */
    method ApplyDateFilter()
      modifies this`filteredOrders
      ensures filteredOrders == DateFilter(orders, fromDate, toDate, parseDay)
      ensures IsSubsequence(filteredOrders, orders)
    {
      DateFilterIsSubsequence(orders, fromDate, toDate, parseDay);
      if fromDate == "" && toDate == "" {
        filteredOrders := orders;
        return;
      }
      var from := FromBound(fromDate, parseDay);
      var to := ToBound(toDate, parseDay);
      filteredOrders := FilterOrders(orders, from, to);
    }

    /** A status button: `setStatus(s)`. */
    method SelectStatus(s: string)
      modifies this`status
      ensures status == s
    {
      status := s;
    }

    /** The "From" input's `onChange`. */
    method SetFromDate(typed: string)
      modifies this`fromDate
      ensures fromDate == typed
    {
      fromDate := typed;
    }

    /** The "To" input's `onChange`. */
    method SetToDate(typed: string)
      modifies this`toDate
      ensures toDate == typed
    {
      toDate := typed;
    }

    /** The Reset button clears both date fields. */
    method ResetDates()
      modifies this`fromDate, this`toDate
      ensures fromDate == "" && toDate == ""
    {
      fromDate, toDate := "", "";
    }
  }
}
