// trading/account.py (and its copy at autotrading.py:389-491): reading the
// account snapshot from the exchange's balance list, grading the position,
// and listing pending and recent orders.
module Account {
  import opened Wrappers

  /** What one exchange call produced: a value, `None`, or an exception. */
  datatype Fetch<T> = Fetched(value: T) | FetchedNone | Raised

  /** A value handed to `float()`: a number (or numeric string), or one `float()` rejects. */
  datatype Num = Num(value: real) | Malformed

  /** One entry of the balances answer: a dict with optional keys, or anything else. */
  datatype BalanceEntry =
    | BalanceDict(currency: Option<string>, balance: Option<Num>, avgBuyPrice: Option<Num>)
    | NotADict

  /** The balances answer: a list of entries, a dict keyed by currency, or another shape. */
  datatype Balances =
    | BalanceList(entries: seq<BalanceEntry>)
    | BalanceMap(items: seq<(string, BalanceEntry)>)
    | OtherShape

  datatype Holdings = Holdings(krw: real, btc: real, avgPrice: real)

  /** The dict get_investment_status returns: exactly these four keys. */
  datatype InvestmentStatus = InvestmentStatus(krwBalance: real, btcBalance: real, btcAvgPrice: real, currentPrice: real)

  const NoHoldings: Holdings := Holdings(0.0, 0.0, 0.0)

  /** `float(d.get(key, 0))`: None when float() raises. */
  function FloatOr0(n: Option<Num>): (r: Option<real>)
    ensures n.None? ==> r == Some(0.0)
    ensures n.Some? && n.value.Num? ==> r == Some(n.value.value)
    ensures n == Some(Malformed) ==> r.None?
  {
    match n
    case None => Some(0.0)
    case Some(Num(v)) => Some(v)
    case Some(Malformed) => None
  }

  /**
   * The effect of one currency entry on the holdings; None when the entry
   * makes the loop raise (not a dict where one is read, or an unparsable number).
   */
  function ApplyEntry(h: Holdings, currency: string, e: BalanceEntry): Option<Holdings>
  {
    if currency == "KRW" then
      if e.NotADict? then None
      else match FloatOr0(e.balance)
        case None => None
        case Some(k) => Some(h.(krw := k))
    else if currency == "BTC" then
      if e.NotADict? then None
      else match FloatOr0(e.balance)
        case None => None
        case Some(b) =>
          match FloatOr0(e.avgBuyPrice)
          case None => None
          case Some(a) => Some(h.(btc := b, avgPrice := a))
    else Some(h)
  }

  /** The currency an entry is filed under: the list form reads its 'currency' key, the dict form its key. */
  function ListCurrency(e: BalanceEntry): string
  {
    if e.BalanceDict? then e.currency.GetOr("") else ""
  }

  /** The list loop, entry by entry (trading/account.py:27-35); non-dict entries are skipped. */
  function FoldList(h: Holdings, es: seq<BalanceEntry>): Option<Holdings>
    decreases |es|
  {
    if es == [] then Some(h)
    else if es[0].NotADict? then FoldList(h, es[1..])
    else match ApplyEntry(h, ListCurrency(es[0]), es[0])
      case None => None
      case Some(h') => FoldList(h', es[1..])
  }

  /** The dict loop, item by item (trading/account.py:37-43). */
  function FoldMap(h: Holdings, items: seq<(string, BalanceEntry)>): Option<Holdings>
    decreases |items|
  {
    if items == [] then Some(h)
    else match ApplyEntry(h, items[0].0, items[0].1)
      case None => None
      case Some(h') => FoldMap(h', items[1..])
  }

  /** Holdings read from a balances answer; another shape leaves everything at 0. */
  function ParsedHoldings(b: Balances): Option<Holdings>
  {
    match b
    case BalanceList(es) => FoldList(NoHoldings, es)
    case BalanceMap(items) => FoldMap(NoHoldings, items)
    case OtherShape => Some(NoHoldings)
  }

  /** The balance-parsing loops of get_investment_status (trading/account.py:22-43). */
  method ParseBalances(b: Balances) returns (r: Option<Holdings>)
    ensures r == ParsedHoldings(b)
  {
    var h := NoHoldings;
    match b {
      case BalanceList(es) =>
        var i := 0;
        while i < |es|
          invariant 0 <= i <= |es|
          invariant FoldList(NoHoldings, es) == FoldList(h, es[i..])
        {
          assert es[i..][1..] == es[i + 1..];
          if es[i].BalanceDict? {
            var currency := es[i].currency.GetOr("");
            var next := ApplyEntry(h, currency, es[i]);
            if next.None? {
              return None;
            }
            h := next.value;
          }
          i := i + 1;
        }
      case BalanceMap(items) =>
        var i := 0;
        while i < |items|
          invariant 0 <= i <= |items|
          invariant FoldMap(NoHoldings, items) == FoldMap(h, items[i..])
        {
          assert items[i..][1..] == items[i + 1..];
          var next := ApplyEntry(h, items[i].0, items[i].1);
          if next.None? {
            return None;
          }
          h := next.value;
          i := i + 1;
        }
      case OtherShape =>
    }
    return Some(h);
  }

  /** A list entry carrying the KRW balance. */
  predicate IsKrwEntry(e: BalanceEntry)
  {
    e.BalanceDict? && e.currency == Some("KRW")
  }

  /** Reference definition: the KRW balance is that of the last KRW entry, or 0 when there is none. */
  function LastKrw(es: seq<BalanceEntry>, otherwise: real): real
    decreases |es|
  {
    if es == [] then otherwise
    else if IsKrwEntry(es[|es| - 1]) then FloatOr0(es[|es| - 1].balance).GetOr(0.0)
    else LastKrw(es[..|es| - 1], otherwise)
  }

  lemma {:induction false} LastKrwCons(e: BalanceEntry, rest: seq<BalanceEntry>, otherwise: real)
    ensures LastKrw([e] + rest, otherwise) ==
      LastKrw(rest, if IsKrwEntry(e) then FloatOr0(e.balance).GetOr(0.0) else otherwise)
    decreases |rest|
  {
    var s := [e] + rest;
    if rest == [] {
      assert s == [e];
      assert s[..|s| - 1] == [];
    } else {
      assert s[|s| - 1] == rest[|rest| - 1];
      assert s[..|s| - 1] == [e] + rest[..|rest| - 1];
      LastKrwCons(e, rest[..|rest| - 1], otherwise);
    }
  }

  /**
   * Later entries overwrite earlier ones and an absent entry leaves 0: when
   * the list parses, its KRW balance is that of the last KRW entry
   * (trading/account.py:28-32).
   */
  lemma {:induction false} LastKrwEntryWins(h: Holdings, es: seq<BalanceEntry>)
    requires FoldList(h, es).Some?
    ensures FoldList(h, es).value.krw == LastKrw(es, h.krw)
    decreases |es|
  {
    if es != [] {
      assert es == [es[0]] + es[1..];
      LastKrwCons(es[0], es[1..], h.krw);
      if es[0].NotADict? {
        LastKrwEntryWins(h, es[1..]);
      } else {
        var h' := ApplyEntry(h, ListCurrency(es[0]), es[0]).value;
        LastKrwEntryWins(h', es[1..]);
      }
    }
  }

  /** A list without any KRW entry reads a KRW balance of 0. */
  lemma NoKrwEntryMeansZero(es: seq<BalanceEntry>)
    requires ParsedHoldings(BalanceList(es)).Some?
    requires forall i :: 0 <= i < |es| ==> !IsKrwEntry(es[i])
    ensures ParsedHoldings(BalanceList(es)).value.krw == 0.0
  {
    LastKrwEntryWins(NoHoldings, es);
    NoKrwLastIsDefault(es);
  }

  lemma {:induction false} NoKrwLastIsDefault(es: seq<BalanceEntry>)
    requires forall i :: 0 <= i < |es| ==> !IsKrwEntry(es[i])
    ensures LastKrw(es, 0.0) == 0.0
    decreases |es|
  {
    if es != [] {
      NoKrwLastIsDefault(es[..|es| - 1]);
    }
  }

  /**
   * get_investment_status (trading/account.py:10-110) as a function of what
   * the two exchange calls return: None when balances are None, when any
   * step raises (including the btc_ratio division by a zero total), and the
   * four-key snapshot otherwise. A falsy price is reported as 0.
   */
  function StatusOf(balances: Fetch<Balances>, price: Fetch<real>): Option<InvestmentStatus>
  {
    if !balances.Fetched? then None
    else match ParsedHoldings(balances.value)
      case None => None
      case Some(h) =>
        if price.Raised? then None
        else
          var p := if price.Fetched? then price.value else 0.0;
          if p != 0.0 && h.btc > 0.0 && h.krw + h.btc * p == 0.0 then None
          else Some(InvestmentStatus(h.krw, h.btc, h.avgPrice, p))
  }

  /** get_investment_status, with its balance loop (trading/account.py:10-110). */
  method GetInvestmentStatus(balances: Fetch<Balances>, price: Fetch<real>) returns (r: Option<InvestmentStatus>)
    ensures r == StatusOf(balances, price)
  {
    if !balances.Fetched? {
      return None;
    }
    var parsed := ParseBalances(balances.value);
    if parsed.None? {
      return None;
    }
    var h := parsed.value;
    if price.Raised? {
      return None;
    }
    var currentPrice := 0.0;
    if price.Fetched? && price.value != 0.0 {
      currentPrice := price.value;
      if h.btc > 0.0 {
        var btcValue := h.btc * currentPrice;
        var totalAssets := h.krw + btcValue;
        if totalAssets == 0.0 {
          // btc_value / total_assets raises ZeroDivisionError
          return None;
        }
      }
    }
    return Some(InvestmentStatus(h.krw, h.btc, h.avgPrice, currentPrice));
  }

  /** The snapshot is None exactly when balances are missing, unreadable, the price call raises, or the ratio divides by zero. */
  lemma StatusNoneCases(balances: Fetch<Balances>, price: Fetch<real>)
    ensures StatusOf(balances, price).None? <==>
      !balances.Fetched? || ParsedHoldings(balances.value).None? || price.Raised?
      || (var h := ParsedHoldings(balances.value).value;
          price.Fetched? && price.value != 0.0 && h.btc > 0.0 && h.krw + h.btc * price.value == 0.0)
    ensures StatusOf(FetchedNone, price).None?
    ensures StatusOf(balances, FetchedNone).Some? ==> StatusOf(balances, FetchedNone).value.currentPrice == 0.0
  {
  }

  datatype Grade = APlus | A | B | C | D

  /** Performance grade bands (trading/account.py:84-93). */
  function GradeOf(percent: real): Grade
  {
    if percent >= 20.0 then APlus
    else if percent >= 10.0 then A
    else if percent >= 0.0 then B
    else if percent >= -10.0 then C
    else D
  }

  function GradeRank(g: Grade): (r: int)
    ensures 0 <= r <= 4
  {
    match g
    case D => 0
    case C => 1
    case B => 2
    case A => 3
    case APlus => 4
  }

  /** A higher return never gets a lower grade. */
  lemma GradeMonotone(p: real, q: real)
    requires p <= q
    ensures GradeRank(GradeOf(p)) <= GradeRank(GradeOf(q))
  {
  }

  /** The bands: each grade covers exactly its half-open interval of returns. */
  lemma GradeBands(p: real)
    ensures GradeOf(p) == APlus <==> p >= 20.0
    ensures GradeOf(p) == A <==> 10.0 <= p < 20.0
    ensures GradeOf(p) == B <==> 0.0 <= p < 10.0
    ensures GradeOf(p) == C <==> -10.0 <= p < 0.0
    ensures GradeOf(p) == D <==> p < -10.0
  {
  }

  /** total_profit_loss_percent: (btc*price − avg*btc) / (avg*btc) * 100. */
  function ProfitPercent(btc: real, avg: real, price: real): real
    requires avg * btc != 0.0
  {
    (btc * price - avg * btc) / (avg * btc) * 100.0
  }

  /** The holding size cancels: the return is the price's move against the average buy price. */
  lemma ProfitPercentIsPriceMove(btc: real, avg: real, price: real)
    requires btc > 0.0 && avg > 0.0
    ensures avg * btc != 0.0
    ensures ProfitPercent(btc, avg, price) == (price - avg) / avg * 100.0
  {
    assert btc * price - avg * btc == btc * (price - avg);
    assert (btc * (price - avg)) / (avg * btc) == (price - avg) / avg;
  }

  /** The grade get_investment_status prints: only with a price, BTC held and a positive average price (trading/account.py:52-95). */
  function PerformanceGrade(s: InvestmentStatus): (g: Option<Grade>)
    ensures g.Some? <==> s.currentPrice != 0.0 && s.btcBalance > 0.0 && s.btcAvgPrice > 0.0
  {
    if s.currentPrice != 0.0 && s.btcBalance > 0.0 && s.btcAvgPrice > 0.0 then
      Some(GradeOf(ProfitPercent(s.btcBalance, s.btcAvgPrice, s.currentPrice)))
    else None
  }

  /** Bought at 50M and now at 60M is +20%, an A+; the holding size does not matter. */
  lemma GradeExample(btc: real)
    requires btc > 0.0
    ensures PerformanceGrade(InvestmentStatus(0.0, btc, 50000000.0, 60000000.0)) == Some(APlus)
  {
    ProfitPercentIsPriceMove(btc, 50000000.0, 60000000.0);
  }

  /** A price field of an order: absent or None, the market-price marker, or a value for float(). */
  datatype OrderPrice = NoPrice | MarketPrice | Priced(n: Num)

  /** One entry of the pending-orders answer. */
  datatype OrderEntry =
    | OrderDict(side: Option<string>, price: OrderPrice, volume: Option<Num>)
    | NotAnOrderDict

  /** What one order adds to the pending total: price*volume when both parse. */
  function OrderValue(o: OrderEntry): real
  {
    if o.OrderDict? && o.price.Priced? && o.price.n.Num? then
      match FloatOr0(o.volume)
      case Some(v) => o.price.n.value * v
      case None => 0.0
    else 0.0
  }

  /** The pending total: the sum of the order values. */
  function PendingValue(os: seq<OrderEntry>): real
  {
    if os == [] then 0.0 else PendingValue(os[..|os| - 1]) + OrderValue(os[|os| - 1])
  }

  /** The pending total is additive over a split of the order list. */
  lemma {:induction false} PendingValueAppend(a: seq<OrderEntry>, b: seq<OrderEntry>)
    ensures PendingValue(a + b) == PendingValue(a) + PendingValue(b)
    decreases |b|
  {
    if b == [] {
      assert a + b == a;
    } else {
      assert (a + b)[..|a + b| - 1] == a + b[..|b| - 1];
      PendingValueAppend(a, b[..|b| - 1]);
    }
  }

  /** Market-price, unpriced and non-dict orders add nothing to the total (trading/account.py:128-141). */
  lemma {:induction false} UnpricedOrdersAddNothing(os: seq<OrderEntry>)
    requires forall i :: 0 <= i < |os| ==> os[i].NotAnOrderDict? || !os[i].price.Priced?
    ensures PendingValue(os) == 0.0
    decreases |os|
  {
    if os != [] {
      UnpricedOrdersAddNothing(os[..|os| - 1]);
    }
  }

  /**
   * get_pending_orders (trading/account.py:112-152): the orders (an empty
   * list when the call gives None or raises) and the pending total the loop
   * accumulates, which is only printed.
   */
  method GetPendingOrders(fetch: Fetch<seq<OrderEntry>>) returns (orders: seq<OrderEntry>, total: real)
    ensures orders == (if fetch.Fetched? then fetch.value else [])
    ensures total == PendingValue(orders)
  {
    orders := if fetch.Fetched? then fetch.value else [];
    total := 0.0;
    var i := 0;
    while i < |orders|
      invariant 0 <= i <= |orders|
      invariant total == PendingValue(orders[..i])
    {
      assert orders[..i + 1][..i] == orders[..i];
      var o := orders[i];
      if o.OrderDict? && o.price.Priced? && o.price.n.Num? {
        var volume := FloatOr0(o.volume);
        if volume.Some? {
          total := total + o.price.n.value * volume.value;
        }
      }
      i := i + 1;
    }
    assert orders[..i] == orders;
  }

  /** get_recent_orders (trading/account.py:154-191): the orders, or [] when the call gives None or raises. */
  function GetRecentOrders(fetch: Fetch<seq<OrderEntry>>): (r: seq<OrderEntry>)
    ensures fetch.Fetched? ==> r == fetch.value
    ensures !fetch.Fetched? ==> r == []
  {
    if fetch.Fetched? then fetch.value else []
  }
}
