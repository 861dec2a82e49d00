/** agent/trade.go: which running trader a chat trade goes to. */
module TraderResolution {
  import opened Options
  import opened Sequences

  /** What the resolver reads of a managed trader; the broker behind it may have an instrument on its wire. */
  datatype Broker = Broker(wire: Option<string>)
  datatype Trader = Trader(running: bool, exchange: string, broker: Option<Broker>)

  /** The manager hands back a map; an entry may be nil. */
  type Roster = map<string, Option<Trader>>

  /** isCMEFuturesChatSymbol, isStockSymbol and market.FuturesRoot. */
  datatype Market = Market(isFuture: string -> bool, isStock: string -> bool, root: string -> string)

  datatype Resolution =
    | Selected(id: string, stock: bool)
    | NoTraders
    | NoStockTrader
    | NoTrader
    | NoneOfRoot
    | SeveralOfRoot(count: nat)

  // ---- The order of ids ----

  /** The order of sort.Strings. */
  predicate Less(a: string, b: string) {
    b != "" && (a == "" || a[0] < b[0] || (a[0] == b[0] && Less(a[1..], b[1..])))
  }

  lemma {:induction false} LessTotal(a: string, b: string)
    ensures Less(a, b) || Less(b, a) || a == b
    ensures !(Less(a, b) && Less(b, a)) && !Less(a, a)
  {
    if a != "" && b != "" {
      LessTotal(a[1..], b[1..]);
      LessTotal(a[1..], a[1..]);
      assert a == [a[0]] + a[1..] && b == [b[0]] + b[1..];
    } else if a != "" {
      LessTotal(a[1..], a[1..]);
    }
  }

  lemma {:induction false} LessTransitive(a: string, b: string, c: string)
    requires Less(a, b) && Less(b, c)
    ensures Less(a, c)
  {
    if a != "" && a[0] == b[0] == c[0] {
      LessTransitive(a[1..], b[1..], c[1..]);
    }
  }

  predicate Sorted(ids: seq<string>) {
    forall i, j :: 0 <= i < j < |ids| ==> Less(ids[i], ids[j])
  }

  function Insert(ids: seq<string>, id: string): seq<string> {
    if ids == [] || Less(id, ids[0]) then [id] + ids else [ids[0]] + Insert(ids[1..], id)
  }

  lemma {:induction false} InsertSorts(ids: seq<string>, id: string)
    requires Sorted(ids) && id !in ids
    ensures Sorted(Insert(ids, id))
    ensures forall x :: x in Insert(ids, id) <==> x == id || x in ids
  {
    hide Less;
    if ids != [] && !Less(id, ids[0]) {
      InsertSorts(ids[1..], id);
      LessTotal(id, ids[0]);
      assert ids == [ids[0]] + ids[1..];
      forall x | x in Insert(ids[1..], id) ensures Less(ids[0], x) {
        if x != id {
          var k :| 0 <= k < |ids[1..]| && ids[1..][k] == x;
          assert ids[k + 1] == x;
        }
      }
    } else if ids != [] {
      forall i | 0 <= i < |ids| ensures Less(id, ids[i]) {
        if i > 0 {
          LessTransitive(id, ids[0], ids[i]);
        }
      }
    }
  }

  /** tradeCandidatesOf: the ids of the traders that are there, in order, however the map is visited. */
  method CandidateIds(roster: Roster) returns (ids: seq<string>)
    ensures Sorted(ids)
    ensures forall id :: id in ids <==> id in roster && roster[id].Some?
  {
    hide Sorted, Insert, Less;
    ids := [];
    assert Sorted(ids) by { EmptySorted(); }
    var todo := roster.Keys;
    while todo != {}
      invariant todo <= roster.Keys && Sorted(ids)
      invariant forall id :: id in ids <==> id in roster && id !in todo && roster[id].Some?
      decreases todo
    {
      var id :| id in todo;
      todo := todo - {id};
      if roster[id].Some? {
        InsertSorts(ids, id);
        ids := Insert(ids, id);
      }
    }
  }

  lemma {:induction false} EmptySorted()
    ensures Sorted([])
  {
  }

  // ---- What a trade may be sent to ----

  predicate Running(roster: Roster, id: string) {
    id in roster && roster[id].Some? && roster[id].value.running && roster[id].value.broker.Some?
  }

  /** A running trader of the right kind: Alpaca for stocks, any other exchange for the rest. */
  predicate Eligible(roster: Roster, stock: bool, id: string) {
    Running(roster, id) && (roster[id].value.exchange == "alpaca") == stock
  }

  /** A running NinjaTrader trader whose wire instrument has the root. */
  predicate Trades(roster: Roster, root: string, market: Market, id: string) {
    && Running(roster, id) && roster[id].value.exchange == "ninjatrader" && root != ""
    && roster[id].value.broker.value.wire.Some? && market.root(roster[id].value.broker.value.wire.value) == root
  }

  function Hits(roster: Roster, root: string, market: Market): set<string> {
    set id | id in roster && Trades(roster, root, market, id)
  }

  /** The promise of the resolver, with no order of visiting in it. */
  ghost predicate Resolves(roster: Roster, symbol: string, market: Market, r: Resolution) {
    if forall id :: id in roster ==> roster[id] == None then r == NoTraders
    else if market.isFuture(symbol) then
      var hits := Hits(roster, market.root(symbol), market);
      match r
      case Selected(id, stock) => hits == {id} && !stock
      case NoneOfRoot => hits == {}
      case SeveralOfRoot(n) => n == |hits| && n > 1
      case _ => false
    else
      var stock := market.isStock(symbol);
      match r
      case Selected(id, s) => s == stock && Eligible(roster, stock, id) && forall x ::
          Eligible(roster, stock, x) ==> x == id || Less(id, x)
      case NoStockTrader => stock && forall x :: !Eligible(roster, stock, x)
      case NoTrader => !stock && forall x :: !Eligible(roster, stock, x)
      case _ => false
  }

  /** resolveTradeExecutionContext */
  method Resolve(roster: Roster, symbol: string, market: Market) returns (r: Resolution)
    ensures Resolves(roster, symbol, market, r)
  {
    hide Less, Trades, Hits;
    var ids := CandidateIds(roster);
    if ids == [] {
      assert forall id :: id in roster ==> roster[id] == None;
      return NoTraders;
    }
    assert ids[0] in ids;
    if market.isFuture(symbol) {
      r := ResolveFuture(roster, symbol, market, ids);
      return;
    }
    var stock := market.isStock(symbol);
    for i := 0 to |ids|
      invariant forall k :: 0 <= k < i ==> !Eligible(roster, stock, ids[k])
    {
      var t := roster[ids[i]].value;
      if !t.running || t.broker == None || (stock && t.exchange != "alpaca") || (!stock && t.exchange == "alpaca") {
        continue;
      }
      return Selected(ids[i], stock);
    }
    return if stock then NoStockTrader else NoTrader;
  }

  /** resolveCMETrader */
  method ResolveFuture(roster: Roster, symbol: string, market: Market, ids: seq<string>) returns (r: Resolution)
    requires Sorted(ids) && forall id :: id in ids <==> id in roster && roster[id].Some?
    ensures var hits := Hits(roster, market.root(symbol), market);
            match r
            case Selected(id, stock) => hits == {id} && !stock
            case NoneOfRoot => hits == {}
            case SeveralOfRoot(n) => n == |hits| && n > 1
            case _ => false
  {
    var root := market.root(symbol);
    var hits: seq<string> := [];
    ghost var found: set<string> := {};
    for i := 0 to |ids|
      invariant forall x :: x in found <==> x in hits
      invariant forall x :: x in hits <==> x in ids[..i] && Trades(roster, root, market, x)
      invariant |found| == |hits|
    {
      DropStep(ids, i);
      var t := roster[ids[i]].value;
      NotBefore(ids, i);
      if !t.running || t.exchange != "ninjatrader" || t.broker == None || t.broker.value.wire == None
         || root == "" || market.root(t.broker.value.wire.value) != root {
        assert !Trades(roster, root, market, ids[i]);
        continue;
      }
      assert Trades(roster, root, market, ids[i]);
      found := found + {ids[i]};
      hits := hits + [ids[i]];
    }
    assert ids[..|ids|] == ids;
    assert found == Hits(roster, root, market);
    if |hits| == 1 {
      assert found == {hits[0]} by { OneElement(found, hits[0]); }
      return Selected(hits[0], false);
    }
    return if hits == [] then NoneOfRoot else SeveralOfRoot(|hits|);
  }

  lemma {:induction false} NotBefore(ids: seq<string>, i: nat)
    requires Sorted(ids) && i < |ids|
    ensures ids[i] !in ids[..i]
  {
    LessTotal(ids[i], ids[i]);
    hide Less;
  }

  lemma {:induction false} OneElement(s: set<string>, x: string)
    requires |s| == 1 && x in s
    ensures s == {x}
  {
    assert |s - {x}| == 0;
  }

  /** There is exactly one answer: it depends on the roster as a set, not on the order it is visited in. */
  lemma {:induction false} OneAnswer(roster: Roster, symbol: string, market: Market, r: Resolution, r': Resolution)
    requires Resolves(roster, symbol, market, r) && Resolves(roster, symbol, market, r')
    ensures r == r'
  {
    if r.Selected? && r'.Selected? {
      LessTotal(r.id, r'.id);
      assert r.id in {r.id} && r'.id in {r'.id};
    }
    assert forall x: string :: |{x}| == 1;
    hide Less, Trades, Eligible;
  }

  predicate Extends(bigger: Roster, roster: Roster) {
    forall id :: id in roster ==> id in bigger && bigger[id] == roster[id]
  }

  /** Adding traders can make a futures trade refused, never send it to another account: the choice stands
      exactly as long as no second running trader of that root is there. */
  lemma {:induction false} FuturesNeverRedirected(roster: Roster, bigger: Roster, symbol: string, market: Market,
      r: Resolution, r': Resolution)
    requires Extends(bigger, roster) && market.isFuture(symbol)
    requires Resolves(roster, symbol, market, r) && Resolves(bigger, symbol, market, r') && r.Selected?
    ensures r' == r <==> forall id :: Trades(bigger, market.root(symbol), market, id) ==> id == r.id
    ensures r' != r ==> r'.SeveralOfRoot?
  {
    var root := market.root(symbol);
    assert r.id in Hits(roster, root, market);
    assert Trades(bigger, root, market, r.id);
    assert r.id in Hits(bigger, root, market);
    assert bigger[r.id].Some?;
    var hits := Hits(bigger, root, market);
    forall id ensures id in hits <==> Trades(bigger, root, market, id) {}
    hide Trades, Eligible, Less, Hits, Extends;
    if forall id :: id in hits ==> id == r.id {
      assert hits == {r.id};
    } else {
      var other :| other in hits && other != r.id;
      assert forall x :: hits != {x};
    }
  }

  /** For any other symbol, adding traders moves the choice only to an eligible one with a smaller id. */
  lemma {:induction false} OthersMoveDown(roster: Roster, bigger: Roster, symbol: string, market: Market,
      r: Resolution, r': Resolution)
    requires Extends(bigger, roster) && !market.isFuture(symbol)
    requires Resolves(roster, symbol, market, r) && Resolves(bigger, symbol, market, r') && r.Selected?
    ensures r'.Selected? && (r' == r || (Less(r'.id, r.id) && r'.id !in roster))
  {
    assert Eligible(bigger, market.isStock(symbol), r.id);
    assert bigger[r.id].Some?;
    if r'.Selected? && r'.id in roster {
      assert Eligible(roster, market.isStock(symbol), r'.id);
    }
    if r'.Selected? {
      LessTotal(r.id, r'.id);
    }
    hide Less;
  }

  /** A futures trade goes to a running NinjaTrader trader whose wire instrument has the symbol's root, and there
      is no other; any other trade to a running trader, of Alpaca for a stock and of another exchange otherwise. */
  lemma {:induction false} RoutedTo(roster: Roster, symbol: string, market: Market, r: Resolution)
    requires Resolves(roster, symbol, market, r) && r.Selected?
    ensures r.id in roster && roster[r.id].Some? && roster[r.id].value.running && roster[r.id].value.broker.Some?
    ensures market.isFuture(symbol) ==>
              && roster[r.id].value.exchange == "ninjatrader" && market.root(symbol) != "" && !r.stock
              && roster[r.id].value.broker.value.wire.Some?
              && market.root(roster[r.id].value.broker.value.wire.value) == market.root(symbol)
              && forall id :: id in roster && id != r.id ==>
                   var t := roster[id];
                   !(&& t.Some? && t.value.running && t.value.exchange == "ninjatrader" && t.value.broker.Some?
                     && t.value.broker.value.wire.Some?
                        && market.root(t.value.broker.value.wire.value) == market.root(symbol))
    ensures !market.isFuture(symbol) ==> r.stock == market.isStock(symbol) == (roster[r.id].value.exchange == "alpaca")
  {
    hide Less;
    if market.isFuture(symbol) {
      var hits := Hits(roster, market.root(symbol), market);
      assert r.id in hits;
      forall id | id in roster && id != r.id ensures !Trades(roster, market.root(symbol), market, id) {
        assert id !in hits;
      }
    }
  }
}
