/** agent/trade.go and agent/tools.go: a chat trade is proposed, waits, and is sent on the owner's command. */
module PendingTrades {
  import opened Options
  import opened TradeCommands

  /** A float64 quantity: a finite number, or an infinity or no number. */
  datatype Quantity = Finite(r: real) | NotFinite

  datatype Trade = Trade(id: string, action: string, symbol: string, quantity: Quantity, leverage: int,
      stop: real, target: real,
                         createdAt: int, price: real, notional: real, large: bool)

  const MAX_QUANTITY := 1000000.0
  const LARGE_NOTIONAL := 5000.0
  const MAX_NOTIONAL := 100000.0
  const EXPIRY_SECONDS := 300

  // ---- validateTradeAction ----

  /** The two spellings of the account's equity, 0 when absent, and the strategy's risk limits. */
  datatype Account = Account(equity: real, equityToo: real, maxLeverage: int, minSize: real, maxRatio: real) {
    function Equity(): real {
      if equity > 0.0 then equity else equityToo
    }

    function MaxLeverage(): int {
      if maxLeverage <= 0 then 5 else maxLeverage
    }

    function MinSize(): real {
      if minSize <= 0.0 then 12.0 else minSize
    }

    function MaxRatio(): real {
      if maxRatio <= 0.0 then 1.0 else maxRatio
    }
  }

  /** What the broker and the market answer; None is an error. */
  datatype Quote = Quote(stock: bool, future: bool, price: Option<real>, account: Option<Account>)

  datatype Refusal = NoNumber | NoQuantity | TooMany | NoPrice | OverHardCap | NoAccount | NoEquity | OverEquity
                   | BadLeverage | TooMuchLeverage | TooSmall | OverRatio

  predicate Opens(action: string) {
    "open_" <= action
  }

  function Value(t: Trade, q: Quote): real
    requires t.quantity.Finite? && q.price.Some?
  {
    t.quantity.r * q.price.value
  }

  /** What the validation writes into the trade. */
  function Priced(t: Trade, q: Quote): Trade
    requires t.quantity.Finite? && q.price.Some?
  {
    t.(price := q.price.value, notional := Value(t, q))
  }

  function Flagged(t: Trade, q: Quote): Trade
    requires t.quantity.Finite? && q.price.Some? && q.account.Some?
  {
    Priced(t, q).(large := t.large || Value(t, q) >= q.account.value.Equity() * 0.25 || Value(t, q) >= LARGE_NOTIONAL)
  }

  /** validateTradeAction: the trade as it leaves it, and why it is refused. */
  method ValidateTradeAction(trade: Trade, q: Quote) returns (t: Trade, refusal: Option<Refusal>)
    ensures refusal == None <==> Acceptable(trade, q)
    ensures refusal == None ==> t == Validated(trade, q)
    ensures t.id == trade.id && t.createdAt == trade.createdAt
  {
    t := trade;
    if t.quantity == NotFinite {
      return t, Some(NoNumber);
    }
    if !Opens(t.action) {
      return t, None;
    }
    if t.quantity.r <= 0.0 {
      return t, Some(NoQuantity);
    }
    if t.quantity.r > MAX_QUANTITY {
      return t, Some(TooMany);
    }
    if q.price == None || q.price.value <= 0.0 {
      return t, Some(NoPrice);
    }
    var value := t.quantity.r * q.price.value;
    t := t.(price := q.price.value, notional := value);
    if value > MAX_NOTIONAL {
      return t, Some(OverHardCap);
    }
    if q.account == None {
      return t, Some(NoAccount);
    }
    var account := q.account.value;
    var equity := account.Equity();
    if equity <= 0.0 {
      return t, Some(NoEquity);
    }
    if value > equity {
      return t, Some(OverEquity);
    }
    if value >= equity * 0.25 {
      t := t.(large := true);
    }
    if value >= LARGE_NOTIONAL {
      t := t.(large := true);
    }
    if q.stock || q.future {
      return t, if t.leverage < 0 then Some(BadLeverage) else None;
    }
    if t.leverage <= 0 {
      return t, Some(BadLeverage);
    }
    if t.leverage > account.MaxLeverage() {
      return t, Some(TooMuchLeverage);
    }
    if value < account.MinSize() {
      return t, Some(TooSmall);
    }
    if value > equity * account.MaxRatio() {
      return t, Some(OverRatio);
    }
    return t, None;
  }

  /** The limits an opening trade must keep, in one piece. */
  predicate WithinLimits(t: Trade, q: Quote) {
    && t.quantity.Finite? && 0.0 < t.quantity.r <= MAX_QUANTITY
    && q.price.Some? && q.price.value > 0.0 && q.account.Some? && q.account.value.Equity() > 0.0
    && Value(t, q) <= MAX_NOTIONAL && Value(t, q) <= q.account.value.Equity()
    && (if q.stock || q.future then t.leverage >= 0
        else && 0 < t.leverage <= q.account.value.MaxLeverage()
             && q.account.value.MinSize() <= Value(t, q) <= q.account.value.Equity() * q.account.value.MaxRatio())
  }

  predicate Acceptable(t: Trade, q: Quote) {
    t.quantity.Finite? && (Opens(t.action) ==> WithinLimits(t, q))
  }

  /** A trade as an acceptance leaves it. */
  function Validated(t: Trade, q: Quote): Trade
    requires Acceptable(t, q)
  {
    if Opens(t.action) then Flagged(t, q) else t
  }

  // ---- The pending trades ----

  type Pending = map<string, Trade>

  function Unexpired(trades: Pending, now: int): Pending {
    map id | id in trades && trades[id].createdAt >= now - EXPIRY_SECONDS :: trades[id]
  }

  class PendingTrades {
    var trades: Pending

    constructor ()
      ensures trades == map[]
    {
      trades := map[];
    }

    method Add(t: Trade)
      modifies this
      ensures trades == old(trades)[t.id := t]
    {
      trades := trades[t.id := t];
    }

    method Get(id: string) returns (t: Option<Trade>)
      ensures t == if id in trades then Some(trades[id]) else None
    {
      t := if id in trades then Some(trades[id]) else None;
    }

    method Remove(id: string)
      modifies this
      ensures trades == old(trades) - {id}
    {
      trades := trades - {id};
    }

    method CleanExpired(now: int)
      modifies this
      ensures trades == Unexpired(old(trades), now)
    {
      var todo := trades.Keys;
      while todo != {}
        invariant todo <= trades.Keys <= old(trades).Keys
        invariant forall id ::
                  id in old(trades)
                  ==> (id in trades <==> id in todo || old(trades)[id].createdAt >= now - EXPIRY_SECONDS)
        invariant forall id :: id in trades ==> trades[id] == old(trades)[id]
        decreases todo
      {
        var id :| id in todo;
        todo := todo - {id};
        if trades[id].createdAt < now - EXPIRY_SECONDS {
          trades := trades - {id};
        }
      }
    }
  }

  // ---- One event ----

  /** An order as it leaves: an opening with its own stop and target through the trader's one door, or a closing. */
  datatype Order =
    | Open(action: string, symbol: string, quantity: real, leverage: int, stop: real, target: real)
    | Close(action: string, symbol: string, quantity: real)

  /** The handlers run one at a time here. `routed` is whether a trader could be resolved, `allowed` whether
      the session may trade; the clock is read at most once per event,
      and not at all on a confirmation, whose time is only recorded. */
  datatype Event =
    | Propose(trade: Trade, allowed: bool, routed: bool, quote: Quote, now: int)
    | Confirm(text: string, routed: bool, quote: Quote, now: int)
    | Sweep(now: int)

  datatype Effect =
    | Rejected
    | Proposed(trade: Trade, now: int)
    | NoCommand
    | NotFound
    | LargeCommandNeeded
    | Executed(trade: Trade, large: bool, order: Option<Order>)
    | Swept(now: int)

  predicate IsOpen(action: string) {
    action == "open_long" || action == "open_short"
  }

  predicate IsClose(action: string) {
    action == "close_long" || action == "close_short"
  }

  /** toolExecuteTrade's own checks and the validation. */
  predicate Proposable(e: Event)
    requires e.Propose?
  {
    && e.allowed && (IsOpen(e.trade.action) || IsClose(e.trade.action))
    && (IsOpen(e.trade.action) ==>
       (e.trade.quantity == NotFinite || e.trade.quantity.r > 0.0) && e.trade.stop > 0.0 && e.trade.target > 0.0)
    && e.routed && Acceptable(e.trade, e.quote)
  }

  /** executeTrade: what, if anything, is sent. */
  function OrderFor(t: Trade, routed: bool, q: Quote): Option<Order> {
    if !routed || !Acceptable(t, q) then None
    else if IsOpen(t.action) then Some(Open(t.action, t.symbol, t.quantity.r, t.leverage, t.stop, t.target))
    else if IsClose(t.action) then Some(Close(t.action, t.symbol, t.quantity.r))
    else None
  }

  function Step(trades: Pending, e: Event, lib: Lib): (Pending, Effect) {
    match e
    case Propose(t, _, _, q, now) =>
      if Proposable(e) then (Unexpired(trades[t.id := Validated(t, q)], now), Proposed(Validated(t, q), now))
          else (trades, Rejected)
    case Confirm(text, routed, q, _) =>
      (match Command(text, lib)
       case None => (trades, NoCommand)
       case Some((id, large)) =>
         if id !in trades then (trades, NotFound)
         else if trades[id].large && !large then (trades, LargeCommandNeeded)
         else (trades - {id}, Executed(trades[id], large, OrderFor(trades[id], routed, q))))
    case Sweep(now) => (Unexpired(trades, now), Swept(now))
  }

  class ChatTrades {
    const pending: PendingTrades

    constructor ()
      ensures fresh(pending) && pending.trades == map[]
    {
      pending := new PendingTrades();
    }

    /** toolExecuteTrade */
    method ProposeTrade(e: Event, lib: Lib) returns (r: Effect)
      requires e.Propose?
      modifies pending
      ensures (pending.trades, r) == Step(old(pending.trades), e, lib)
    {
      hide Acceptable, Flagged, Unexpired;
      if !e.allowed || !(IsOpen(e.trade.action) || IsClose(e.trade.action)) {
        return Rejected;
      }
      if IsOpen(e.trade.action) && e.trade.quantity.Finite? && e.trade.quantity.r <= 0.0 {
        return Rejected;
      }
      if IsOpen(e.trade.action) && !(e.trade.stop > 0.0 && e.trade.target > 0.0) {
        return Rejected;
      }
      if !e.routed {
        return Rejected;
      }
      var t, refusal := ValidateTradeAction(e.trade, e.quote);
      if refusal.Some? {
        return Rejected;
      }
      pending.Add(t);
      pending.CleanExpired(e.now);
      return Proposed(t, e.now);
    }

    /** handleTradeConfirmation */
    method HandleTradeConfirmation(e: Event, lib: Lib) returns (r: Effect)
      requires e.Confirm?
      modifies pending
      ensures (pending.trades, r) == Step(old(pending.trades), e, lib)
    {
      hide Acceptable, Flagged, Unexpired, Command;
      var command := Command(e.text, lib);
      if command == None {
        return NoCommand;
      }
      var (id, large) := command.value;
      var found := pending.Get(id);
      if found == None {
        return NotFound;
      }
      var trade := found.value;
      if trade.large && !large {
        return LargeCommandNeeded;
      }
      pending.Remove(id);
      var order := ExecuteTrade(trade, e.routed, e.quote);
      return Executed(trade, large, order);
    }

    /** executeTrade and executeTradeWith */
    method ExecuteTrade(trade: Trade, routed: bool, q: Quote) returns (order: Option<Order>)
      ensures order == OrderFor(trade, routed, q)
    {
      hide Acceptable, Flagged;
      if !routed {
        return None;
      }
      var t, refusal := ValidateTradeAction(trade, q);
      if refusal.Some? {
        return None;
      }
      AcceptableIsFinite(trade, q);
      if IsOpen(trade.action) {
        return Some(Open(trade.action, trade.symbol, trade.quantity.r, trade.leverage, trade.stop, trade.target));
      }
      return if IsClose(trade.action) then Some(Close(trade.action, trade.symbol, trade.quantity.r)) else None;
    }
  }

  lemma {:induction false} AcceptableIsFinite(t: Trade, q: Quote)
    requires Acceptable(t, q)
    ensures t.quantity.Finite?
  {
  }

  // ---- Whole runs ----

  function After(events: seq<Event>, lib: Lib): Pending {
    if events == [] then map[] else Step(After(events[..|events| - 1], lib), events[|events| - 1], lib).0
  }

  function Effects(events: seq<Event>, lib: Lib): (effects: seq<Effect>)
    ensures |effects| == |events|
  {
    if events == [] then []
    else
      var last := |events| - 1;
      Effects(events[..last], lib) + [Step(After(events[..last], lib), events[last], lib).1]
  }

  /** The effect leaves trade `t` pending, if it was. */
  predicate Spares(r: Effect, t: Trade) {
    match r
    case Proposed(t', now) => t'.id != t.id && t.createdAt >= now - EXPIRY_SECONDS
    case Executed(t', _, _) => t'.id != t.id
    case Swept(now) => t.createdAt >= now - EXPIRY_SECONDS
    case _ => true
  }

  /** Trade `t` was proposed at `k`, was not too old even then, and nothing since has taken it away. */
  predicate OpenSince(effects: seq<Effect>, k: nat, t: Trade)
    requires k < |effects|
  {
    && effects[k].Proposed? && effects[k].trade == t && t.createdAt >= effects[k].now - EXPIRY_SECONDS
    && forall m :: k < m < |effects| ==> Spares(effects[m], t)
  }

  predicate IsOpenTrade(effects: seq<Effect>, t: Trade) {
    exists k :: 0 <= k < |effects| && OpenSince(effects, k, t)
  }

  predicate Holds(trades: Pending, t: Trade) {
    t.id in trades && trades[t.id] == t
  }

  predicate Keyed(trades: Pending) {
    forall id :: id in trades ==> trades[id].id == id
  }

  lemma {:induction false} OneStep(trades: Pending, e: Event, lib: Lib, t: Trade)
    requires Keyed(trades)
    ensures var (next, r) := Step(trades, e, lib);
            && Keyed(next)
            && (Holds(next, t) <==>
               (r.Proposed? && r.trade == t && t.createdAt >= r.now - EXPIRY_SECONDS)
               || (Holds(trades, t) && Spares(r, t)))
            && (r.Executed? ==>
               Holds(trades, r.trade) && (r.trade.large ==> r.large) && e.Confirm?
               && r.order == OrderFor(r.trade, e.routed, e.quote))
  {
    if e.Propose? && Proposable(e) {
      ValidatedKeeps(e.trade, e.quote);
    }
    hide Command, Acceptable, Validated, OrderFor;
  }

  lemma {:induction false} ValidatedKeeps(t: Trade, q: Quote)
    requires Acceptable(t, q)
    ensures Validated(t, q) == t.(price := Validated(t, q).price, notional := Validated(t, q).notional,
            large := Validated(t, q).large)
    ensures t.large ==> Validated(t, q).large
  {
  }

  lemma {:induction false} OpenStep(effects: seq<Effect>, r: Effect, t: Trade)
    ensures IsOpenTrade(effects + [r], t)
            <==> (r.Proposed? && r.trade == t && t.createdAt >= r.now - EXPIRY_SECONDS)
                 || (IsOpenTrade(effects, t) && Spares(r, t))
  {
    var all := effects + [r];
    hide Spares;
    assert all[|effects|] == r;
    forall k | 0 <= k < |effects| ensures OpenSince(all, k, t) <==> OpenSince(effects, k, t) && Spares(r, t) {
      assert forall m :: k < m < |effects| ==> all[m] == effects[m];
    }
    if r.Proposed? && r.trade == t && t.createdAt >= r.now - EXPIRY_SECONDS {
      assert OpenSince(all, |effects|, t);
    }
  }

  /** A trade is pending exactly when it was proposed and nothing since has executed, replaced or expired it. */
  lemma {:induction false} PendingExactly(events: seq<Event>, lib: Lib, t: Trade)
    ensures Keyed(After(events, lib))
    ensures Holds(After(events, lib), t) <==> IsOpenTrade(Effects(events, lib), t)
  {
    if events != [] {
      var last := |events| - 1;
      PendingExactly(events[..last], lib, t);
      OneStep(After(events[..last], lib), events[last], lib, t);
      OpenStep(Effects(events[..last], lib), Step(After(events[..last], lib), events[last], lib).1, t);
      hide Step, IsOpenTrade, Spares, Keyed;
    }
  }

  lemma {:induction false} EffectsOfPrefix(events: seq<Event>, n: nat, lib: Lib)
    requires n < |events|
    ensures Effects(events, lib)[..n] == Effects(events[..n], lib)
    ensures Effects(events, lib)[n] == Step(After(events[..n], lib), events[n], lib).1
    decreases |events|
  {
    hide Step, After;
    var last := |events| - 1;
    if n < last {
      EffectsOfPrefix(events[..last], n, lib);
      assert events[..last][..n] == events[..n];
      assert Effects(events, lib)[..n] == Effects(events[..last], lib)[..n];
    }
  }

  /** In every serial run a trade is executed only while it is open, a flagged one only by the large-order
      command, and what is sent is what executing it then sends. */
  lemma {:induction false} ExecutedOnlyWhileOpen(events: seq<Event>, i: nat, lib: Lib)
    requires i < |events| && Effects(events, lib)[i].Executed?
    ensures var r := Effects(events, lib)[i];
            && IsOpenTrade(Effects(events, lib)[..i], r.trade) && (r.trade.large ==> r.large)
            && events[i].Confirm? && r.order == OrderFor(r.trade, events[i].routed, events[i].quote)
  {
    EffectsOfPrefix(events, i, lib);
    var r := Effects(events, lib)[i];
    if r.Executed? {
      PendingExactly(events[..i], lib, r.trade);
      OneStep(After(events[..i], lib), events[i], lib, r.trade);
    }
    hide Step, IsOpenTrade, After, Keyed;
  }

  /** Between two executions of one id it was proposed anew: with ids never used twice, each trade is
      executed at most once. */
  lemma {:induction false} AtMostOnce(events: seq<Event>, i: nat, j: nat, lib: Lib)
    requires i < j < |events|
    requires var effects := Effects(events, lib);
             effects[i].Executed? && effects[j].Executed? && effects[i].trade.id == effects[j].trade.id
    ensures exists k :: i < k < j && Effects(events, lib)[k].Proposed?
                        && Effects(events, lib)[k].trade.id == Effects(events, lib)[j].trade.id
  {
    var effects := Effects(events, lib);
    ExecutedOnlyWhileOpen(events, j, lib);
    var k :| 0 <= k < |effects[..j]| && OpenSince(effects[..j], k, effects[j].trade);
    assert forall m :: 0 <= m < j ==> effects[..j][m] == effects[m];
    hide After, Step;
    assert !Spares(effects[i], effects[j].trade);
    assert effects[k].Proposed?;
  }

  /** What a proposal leaves behind: one of the four actions, an opening with a stop and a target. */
  predicate Shaped(t: Trade) {
    (IsOpen(t.action) || IsClose(t.action)) && (IsOpen(t.action) ==> t.stop > 0.0 && t.target > 0.0)
  }

  lemma {:induction false} PendingShaped(events: seq<Event>, lib: Lib)
    ensures forall id :: id in After(events, lib) ==> Shaped(After(events, lib)[id])
  {
    if events != [] {
      var last := |events| - 1;
      PendingShaped(events[..last], lib);
      var e := events[last];
      if e.Propose? && Proposable(e) {
        ValidatedKeeps(e.trade, e.quote);
      }
      hide Command, Acceptable, Validated, OrderFor;
    }
  }

  lemma {:induction false} LimitsOf(t: Trade, routed: bool, q: Quote)
    requires OrderFor(t, routed, q).Some? && OrderFor(t, routed, q).value.Open? && Shaped(t)
    ensures var o := OrderFor(t, routed, q).value;
            && o.stop > 0.0 && o.target > 0.0 && 0.0 < o.quantity <= MAX_QUANTITY
            && q.price.Some? && q.account.Some? && q.price.value > 0.0
            && o.quantity * q.price.value <= MAX_NOTIONAL && o.quantity * q.price.value <= q.account.value.Equity()
            && o == Open(t.action, t.symbol, o.quantity, t.leverage, t.stop, t.target)
            && t.quantity == Finite(o.quantity) && WithinLimits(t, q)
  {
    OpensStart();
    hide Opens;
  }

  lemma {:induction false} OpensStart()
    ensures forall action :: IsOpen(action) ==> Opens(action)
  {
    assert "open_long"[..5] == "open_" && "open_short"[..5] == "open_";
  }

  /** Every opening that is ever sent has a stop and a target, 0 < quantity <= 1,000,000, and is worth no
      more than 100,000 and no more than the equity at the price it is checked at when it is sent. */
  lemma {:induction false} SentWithinLimits(events: seq<Event>, i: nat, lib: Lib)
    requires i < |events| && Effects(events, lib)[i].Executed? && Effects(events, lib)[i].order.Some?
    requires Effects(events, lib)[i].order.value.Open?
    ensures events[i].Confirm?
    ensures var r, q := Effects(events, lib)[i], events[i].quote;
            var o := r.order.value;
            && o.stop > 0.0 && o.target > 0.0 && 0.0 < o.quantity <= MAX_QUANTITY
            && q.price.Some? && q.account.Some? && q.price.value > 0.0
            && o.quantity * q.price.value <= MAX_NOTIONAL && o.quantity * q.price.value <= q.account.value.Equity()
            && o == Open(r.trade.action, r.trade.symbol, o.quantity, r.trade.leverage, r.trade.stop, r.trade.target)
            && r.trade.quantity == Finite(o.quantity) && WithinLimits(r.trade, q)
  {
    ExecutedOnlyWhileOpen(events, i, lib);
    ExecutedShaped(events, i, lib);
    hide Step, After, IsOpenTrade, Opens, Effects, Keyed, Shaped, WithinLimits, OrderFor;
    LimitsOf(Effects(events, lib)[i].trade, events[i].routed, events[i].quote);
  }

  lemma {:induction false} ExecutedShaped(events: seq<Event>, i: nat, lib: Lib)
    requires i < |events| && Effects(events, lib)[i].Executed?
    ensures Shaped(Effects(events, lib)[i].trade)
  {
    ExecutedOnlyWhileOpen(events, i, lib);
    EffectsOfPrefix(events, i, lib);
    PendingShaped(events[..i], lib);
    PendingExactly(events[..i], lib, Effects(events, lib)[i].trade);
    hide Step, After, IsOpenTrade, Effects, Keyed, Shaped, OrderFor;
  }

  /** What a confirmation leads to: nothing without a command, nothing when no trade of that id waits, a demand for
      the large-order command for a flagged trade, and otherwise the trade is taken out and executed. */
  lemma {:induction false} ConfirmationLeadsTo(trades: Pending, e: Event, lib: Lib)
    requires e.Confirm?
    ensures var (next, r) := Step(trades, e, lib);
            match Command(e.text, lib)
            case None => r == NoCommand && next == trades
            case Some((id, large)) =>
              && (id !in trades ==> r == NotFound && next == trades)
              && (id in trades && trades[id].large && !large ==> r == LargeCommandNeeded && next == trades)
              && (id in trades && (trades[id].large ==> large) ==>
                    && r == Executed(trades[id], large, OrderFor(trades[id], e.routed, e.quote))
                    && id !in next && forall other :: other != id ==>
                         (other in next <==> other in trades) && (other in next ==> next[other] == trades[other]))
  {
    hide Command, OrderFor;
  }

  /** The equity a trade is measured by, the code's choice among the account's two fields. */
  function Worth(a: Account): real {
    if a.equity > 0.0 then a.equity else a.equityToo
  }

  /** In numbers: an opening of a value v is accepted when 0 < quantity <= 1,000,000, the price is positive and
      v is at most 100,000 and the equity; on crypto markets also when 1 <= leverage <= 5, at least 12 and at
      most the equity are used, unless the strategy sets its own positive limits. */
  lemma {:induction false} LimitsInNumbers(t: Trade, q: Quote)
    ensures Acceptable(t, q)
            <==> && t.quantity.Finite?
                 && ("open_" <= t.action ==>
                       && q.price.Some? && q.price.value > 0.0 && q.account.Some? && Worth(q.account.value) > 0.0
                       && 0.0 < t.quantity.r <= 1000000.0
                       && var (v, a) := (t.quantity.r * q.price.value, q.account.value);
                       && v <= 100000.0 && v <= Worth(a)
                       && if q.stock || q.future then t.leverage >= 0
                          else && 0 < t.leverage <= (if a.maxLeverage > 0 then a.maxLeverage else 5)
                               && (if a.minSize > 0.0 then a.minSize else 12.0) <= v
                               && v <= Worth(a) * (if a.maxRatio > 0.0 then a.maxRatio else 1.0))
  {
    if q.account.Some? {
      AccountInNumbers(q.account.value);
    }
    hide Account.Equity, Account.MaxLeverage, Account.MinSize, Account.MaxRatio, Worth;
  }

  lemma {:induction false} AccountInNumbers(a: Account)
    ensures a.Equity() == Worth(a) && a.MaxLeverage() == (if a.maxLeverage > 0 then a.maxLeverage else 5)
    ensures a.MinSize() == (if a.minSize > 0.0 then a.minSize else 12.0)
            && a.MaxRatio() == (if a.maxRatio > 0.0 then a.maxRatio else 1.0)
  {
  }

  /** An accepted opening carries the price and the value it was checked at, and is large when it was proposed as
      such or is worth a quarter of the equity or 5,000; a closing is left as it is. */
  lemma {:induction false} FlagInNumbers(t: Trade, q: Quote)
    requires Acceptable(t, q)
    ensures var v := Validated(t, q);
            if "open_" <= t.action then
              && q.price.Some? && q.account.Some? && t.quantity.Finite?
              && var value := t.quantity.r * q.price.value;
              v == t.(price := q.price.value, notional := value,
                      large := t.large || value >= Worth(q.account.value) / 4.0 || value >= 5000.0)
            else v == t
  {
  }

  /** A proposal is accepted exactly when the session may trade, the action is one of the four, an opening has a
      positive quantity, stop and target, a trader is routed and the limits are kept. */
  lemma {:induction false} ProposalAccepted(trades: Pending, e: Event, lib: Lib)
    requires e.Propose?
    ensures var t := e.trade;
            var opens := t.action == "open_long" || t.action == "open_short";
            Step(trades, e, lib).1.Proposed?
            <==> && e.allowed && e.routed && (opens || t.action == "close_long" || t.action == "close_short")
                 && (opens ==> t.stop > 0.0 && t.target > 0.0) && Acceptable(t, e.quote)
  {
    OpensStart();
    hide Opens;
  }

  /** The order a proposal asks for: to close is to close the same side of the same symbol in the same quantity,
      to open is to open it with the proposal's own leverage, stop and target. */
  predicate AsksFor(t: Trade, o: Order) {
    match o
    case Close(action, symbol, quantity) =>
      && (t.action == "close_long" || t.action == "close_short")
      && action == t.action && symbol == t.symbol && Finite(quantity) == t.quantity
    case Open(action, symbol, quantity, leverage, stop, target) =>
      && (t.action == "open_long" || t.action == "open_short")
      && action == t.action && symbol == t.symbol && Finite(quantity) == t.quantity
      && leverage == t.leverage && stop == t.stop && target == t.target
  }

  /** In every serial run, what a confirmation sends is the order that an earlier proposal of that id asks for; a
      closing is sent exactly when a trader is routed and the quantity is a number, an opening exactly when a
      trader is routed and it is within the limits then. */
  lemma {:induction false} SendsWhatWasProposed(events: seq<Event>, i: nat, lib: Lib)
    requires i < |events| && Effects(events, lib)[i].Executed?
    ensures events[i].Confirm?
    ensures var (r, e) := (Effects(events, lib)[i], events[i]);
            exists k :: 0 <= k < i && events[k].Propose? && Effects(events, lib)[k].Proposed?
                && events[k].trade.id == r.trade.id
              && (r.order.Some? ==> AsksFor(events[k].trade, r.order.value))
              && (r.order.Some? <==>
                 e.routed && (if IsClose(events[k].trade.action) then events[k].trade.quantity.Finite?
                                                  else WithinLimits(events[k].trade, e.quote)))
  {
    ExecutedOnlyWhileOpen(events, i, lib);
    var r := Effects(events, lib)[i];
    var effects := Effects(events, lib)[..i];
    var k :| 0 <= k < |effects| && OpenSince(effects, k, r.trade);
    assert effects[k] == Effects(events, lib)[k];
    EffectsOfPrefix(events, k, lib);
    hide Effects, After, Keyed, Spares, OrderFor, Command, Unexpired;
    ProposedFrom(After(events[..k], lib), events[k], lib);
    OrderAsked(events[k].trade, events[k].quote, r.trade, events[i].routed, events[i].quote);
  }

  lemma {:induction false} ProposedFrom(trades: Pending, e: Event, lib: Lib)
    requires Step(trades, e, lib).1.Proposed?
    ensures e.Propose? && Acceptable(e.trade, e.quote) && Shaped(e.trade)
            && Step(trades, e, lib).1.trade == Validated(e.trade, e.quote)
  {
    hide Command, Acceptable, Validated, OrderFor, Unexpired;
  }

  lemma {:induction false} OrderAsked(p: Trade, was: Quote, t: Trade, routed: bool, q: Quote)
    requires Acceptable(p, was) && Shaped(p) && t == Validated(p, was)
    ensures t.id == p.id
    ensures var o := OrderFor(t, routed, q);
            && (o.Some? ==> AsksFor(p, o.value))
            && (o.Some? <==> routed && (if IsClose(p.action) then p.quantity.Finite? else WithinLimits(p, q)))
  {
    hide Acceptable, Validated, OrderFor, AsksFor, WithinLimits, IsClose, Shaped;
    ValidatedKeeps(p, was);
    OrderIgnores(p, t, routed, q);
    OrderPlain(p, routed, q);
  }

  /** What the validation writes does not change the order. */
  lemma {:induction false} OrderIgnores(p: Trade, t: Trade, routed: bool, q: Quote)
    requires t == p.(price := t.price, notional := t.notional, large := t.large)
    ensures OrderFor(t, routed, q) == OrderFor(p, routed, q)
  {
    hide Opens;
  }

  lemma {:induction false} OrderPlain(p: Trade, routed: bool, q: Quote)
    requires Shaped(p)
    ensures var o := OrderFor(p, routed, q);
            && (o.Some? ==> AsksFor(p, o.value))
            && (o.Some? <==> routed && (if IsClose(p.action) then p.quantity.Finite? else WithinLimits(p, q)))
  {
    OpensStart();
    ClosesDoNotOpen();
    hide Opens, WithinLimits;
    if WithinLimits(p, q) {
      FiniteWithin(p, q);
    }
  }

  lemma {:induction false} FiniteWithin(t: Trade, q: Quote)
    requires WithinLimits(t, q)
    ensures t.quantity.Finite?
  {
  }

  lemma {:induction false} ClosesDoNotOpen()
    ensures forall action :: IsClose(action) ==> !Opens(action) && !IsOpen(action)
  {
    assert "close_long"[0] == 'c' && "close_short"[0] == 'c' && "open_"[0] == 'o' && "open_long"[0] == 'o'
        && "open_short"[0] == 'o';
  }

  /** The flag is the proposal's: a trade proposed below the large-order marks is sent on the plain command
      however large it has become. */
  lemma {:induction false} GrownTradeNeedsNoLargeCommand(trades: Pending, e: Event, t: Trade, lib: Lib)
    requires e.Confirm? && Holds(trades, t) && Command(e.text, lib) == Some((t.id, false))
    requires IsOpen(t.action) && e.routed && Acceptable(t, e.quote) && Validated(t, e.quote).large
    ensures Step(trades, e, lib).1 == (if t.large then LargeCommandNeeded
            else Executed(t, false, OrderFor(t, e.routed, e.quote)))
    ensures !t.large ==> OrderFor(t, e.routed, e.quote).Some?
  {
    hide Acceptable, Command, Validated;
  }

  /** Such a run: proposed at 1,000, confirmed plainly, sent at 6,000. */
  lemma {:induction false} GrownTrade(id: string, text: string, lib: Lib)
    requires Command(text, lib) == Some((id, false))
    ensures var account := Account(50000.0, 0.0, 5, 12.0, 1.0);
            var t := Trade(id, "open_long", "S", Finite(1.0), 1, 900.0, 1100.0, 0, 0.0, 0.0, false);
            var events := [Propose(t, true, true, Quote(false, false, Some(1000.0), Some(account)), 0),
                           Confirm(text, true, Quote(false, false, Some(6000.0), Some(account)), 60)];
            var r := Effects(events, lib)[1];
            r.Executed? && !r.large && r.order.Some? && Validated(r.trade, events[1].quote).large
  {
    var account := Account(50000.0, 0.0, 5, 12.0, 1.0);
    var t := Trade(id, "open_long", "S", Finite(1.0), 1, 900.0, 1100.0, 0, 0.0, 0.0, false);
    var proposal, confirm := Propose(t, true, true, Quote(false, false, Some(1000.0), Some(account)), 0),
                             Confirm(text, true, Quote(false, false, Some(6000.0), Some(account)), 60);
    var events := [proposal, confirm];
    OpensStart();
    assert IsOpen("open_long");
    hide Opens, Command;
    assert events[..1] == [proposal] && [proposal][..0] == [];
    EffectsOfPrefix(events, 1, lib);
    var v := Validated(t, proposal.quote);
    assert After([proposal], lib) == map[id := v];
  }

  /** Neither proposed anew nor executed between `k` and `i`. */
  predicate Untouched(effects: seq<Effect>, k: nat, i: nat, id: string)
    requires i <= |effects|
  {
    forall m :: k < m < i ==> !((effects[m].Proposed? || effects[m].Executed?) && effects[m].trade.id == id)
  }

  /** The effect is that of an accepted proposal or a sweep after the trade's five minutes. */
  predicate DropsExpired(r: Effect, t: Trade) {
    (r.Proposed? || r.Swept?) && t.createdAt < r.now - EXPIRY_SECONDS
  }

  /** Nothing but an accepted proposal or a sweep ever looks at a trade's age: its command sends it, however
      late it comes, exactly when neither has come after its five minutes. */
  lemma {:induction false} SentUnlessDropped(events: seq<Event>, k: nat, i: nat, t: Trade, large: bool, lib: Lib)
    requires k < i < |events| && Effects(events, lib)[k].Proposed? && Effects(events, lib)[k].trade == t
    requires !DropsExpired(Effects(events, lib)[k], t) && Untouched(Effects(events, lib), k, i, t.id)
    requires events[i].Confirm? && Command(events[i].text, lib) == Some((t.id, large)) && (t.large ==> large)
    ensures var r := Effects(events, lib)[i];
            && (r.Executed? && r.trade == t <==> forall m :: k < m < i ==> !DropsExpired(Effects(events, lib)[m], t))
            && (r.Executed? ==> r.trade == t)
  {
    hide Step, After, Command, IsOpenTrade, Keyed, OpenSince, Spares, Holds, DropsExpired, Untouched;
    var effects := Effects(events, lib)[..i];
    SameUntil(Effects(events, lib), k, i, t);
    EffectsOfPrefix(events, i, lib);
    PendingExactly(events[..i], lib, t);
    CommandSends(After(events[..i], lib), events[i], t, large, lib);
    OpenUnlessDropped(effects, k, t);
    if Effects(events, lib)[i].Executed? {
      var other := Effects(events, lib)[i].trade;
      PendingExactly(events[..i], lib, other);
      OneStep(After(events[..i], lib), events[i], lib, other);
      OnlyOne(effects, k, t, other);
    }
  }

  lemma {:induction false} SameUntil(effects: seq<Effect>, k: nat, i: nat, t: Trade)
    requires k < i <= |effects|
    ensures Untouched(effects, k, i, t.id) <==> Untouched(effects[..i], k, i, t.id)
    ensures (forall m :: k < m < i ==> !DropsExpired(effects[m], t))
            <==> (forall m :: k < m < i ==> !DropsExpired(effects[..i][m], t))
  {
    hide DropsExpired;
    assert forall m :: k < m < i ==> effects[..i][m] == effects[m];
  }

  lemma {:induction false} CommandSends(trades: Pending, e: Event, t: Trade, large: bool, lib: Lib)
    requires Keyed(trades) && e.Confirm? && Command(e.text, lib) == Some((t.id, large)) && (t.large ==> large)
    ensures var r := Step(trades, e, lib).1;
            && (Holds(trades, t) <==> r.Executed? && r.trade == t) && (r.Executed? ==> r.trade.id == t.id)
  {
    hide Command, OrderFor;
  }

  lemma {:induction false} OpenUnlessDropped(effects: seq<Effect>, k: nat, t: Trade)
    requires k < |effects| && effects[k].Proposed? && effects[k].trade == t && !DropsExpired(effects[k], t)
    requires Untouched(effects, k, |effects|, t.id)
    ensures IsOpenTrade(effects, t) <==> forall m :: k < m < |effects| ==> !DropsExpired(effects[m], t)
  {
    forall m | k < m < |effects| ensures Spares(effects[m], t) <==> !DropsExpired(effects[m], t) {}
    assert OpenSince(effects, k, t) <==> forall m :: k < m < |effects| ==> !DropsExpired(effects[m], t);
    forall j | 0 <= j < |effects| && j != k ensures OpenSince(effects, j, t) ==> j < k {}
    forall j | 0 <= j < k ensures !OpenSince(effects, j, t) {
      assert !Spares(effects[k], t);
    }
  }

  lemma {:induction false} OnlyOne(effects: seq<Effect>, k: nat, t: Trade, other: Trade)
    requires k < |effects| && effects[k].Proposed? && effects[k].trade == t
    requires Untouched(effects, k, |effects|, t.id) && other.id == t.id && IsOpenTrade(effects, other)
    ensures other == t
  {
    var j :| 0 <= j < |effects| && OpenSince(effects, j, other);
    assert j < k ==> !Spares(effects[k], other);
  }

  /** Such a run: proposed, then sent at any time past its five minutes. */
  lemma {:induction false} LateTradeExecutes(id: string, text: string, late: int, lib: Lib)
    requires Command(text, lib) == Some((id, false)) && late > EXPIRY_SECONDS
    ensures var quote := Quote(false, false, Some(1000.0), Some(Account(50000.0, 0.0, 5, 12.0, 1.0)));
            var t := Trade(id, "open_long", "S", Finite(1.0), 1, 900.0, 1100.0, 0, 0.0, 0.0, false);
            var events := [Propose(t, true, true, quote, 0), Confirm(text, true, quote, late)];
            var r := Effects(events, lib)[1];
            r.Executed? && r.order == Some(Open("open_long", "S", 1.0, 1, 900.0, 1100.0))
                && late - r.trade.createdAt > EXPIRY_SECONDS
  {
    var quote := Quote(false, false, Some(1000.0), Some(Account(50000.0, 0.0, 5, 12.0, 1.0)));
    var t := Trade(id, "open_long", "S", Finite(1.0), 1, 900.0, 1100.0, 0, 0.0, 0.0, false);
    var proposal, confirm := Propose(t, true, true, quote, 0), Confirm(text, true, quote, late);
    var events := [proposal, confirm];
    OpensStart();
    assert IsOpen("open_long");
    hide Opens, Command;
    assert events[..1] == [proposal] && [proposal][..0] == [];
    EffectsOfPrefix(events, 1, lib);
    assert After([proposal], lib) == map[id := Validated(t, quote)];
  }

  // ---- Handlers side by side ----

  /** Looking a trade up and taking it out are two steps, and nothing keeps other handlers out in between.
      These are the steps of the handlers that confirm one and the same trade. */
  datatype Act = Look(h: nat) | Take(h: nat)

  /** Whether the trade is still there, and the handlers that hold it. */
  datatype Sides = Sides(pending: bool, held: set<nat>)

  function Side(s: Sides, a: Act): Sides {
    match a
    case Look(h) => s.(held := if s.pending then s.held + {h} else s.held - {h})
    case Take(h) => if h in s.held then Sides(false, s.held - {h}) else s
  }

  function SidesAfter(acts: seq<Act>): Sides {
    if acts == [] then Sides(true, {}) else Side(SidesAfter(acts[..|acts| - 1]), acts[|acts| - 1])
  }

  /** The step executes the trade. */
  predicate Executes(acts: seq<Act>, j: nat)
    requires j < |acts|
  {
    acts[j].Take? && acts[j].h in SidesAfter(acts[..j]).held
  }

  /** Step `i` is the last at which `h` looked or took, a look that found the trade. */
  predicate FoundAt(acts: seq<Act>, h: nat, i: nat)
    requires i < |acts|
  {
    acts[i] == Look(h) && SidesAfter(acts[..i]).pending && forall m ::
        i < m < |acts| ==> acts[m] != Look(h) && acts[m] != Take(h)
  }

  lemma {:induction false} HeldWasFound(acts: seq<Act>, h: nat)
    ensures h in SidesAfter(acts).held <==> exists i :: 0 <= i < |acts| && FoundAt(acts, h, i)
  {
    if acts != [] {
      var last := |acts| - 1;
      var before := acts[..last];
      HeldWasFound(before, h);
      forall i | 0 <= i < last ensures FoundAt(acts, h, i)
          <==> FoundAt(before, h, i) && acts[last] != Look(h) && acts[last] != Take(h) {
        assert acts[..i] == before[..i];
        assert forall m :: i < m < last ==> acts[m] == before[m];
        hide SidesAfter;
      }
      assert FoundAt(acts, h, last) <==> acts[last] == Look(h) && SidesAfter(before).pending;
      assert h in SidesAfter(acts).held
             <==> FoundAt(acts, h, last)
                  || (h in SidesAfter(before).held && acts[last] != Look(h) && acts[last] != Take(h));
      hide SidesAfter, FoundAt;
      if h in SidesAfter(acts).held && !FoundAt(acts, h, last) {
        var i :| 0 <= i < |before| && FoundAt(before, h, i);
        assert FoundAt(acts, h, i);
      }
    }
  }

  /** The trade is there exactly as long as nobody has executed it. */
  lemma {:induction false} PendingUntilExecuted(acts: seq<Act>)
    ensures SidesAfter(acts).pending <==> forall j :: 0 <= j < |acts| ==> !Executes(acts, j)
  {
    if acts != [] {
      var last := |acts| - 1;
      PendingUntilExecuted(acts[..last]);
      forall j | 0 <= j < last ensures Executes(acts[..last], j) == Executes(acts, j) {
        assert acts[..last][..j] == acts[..j];
      }
      assert SidesAfter(acts).pending <==> SidesAfter(acts[..last]).pending && !Executes(acts, last);
      hide SidesAfter, Executes;
      if SidesAfter(acts[..last]).pending {
        forall j | 0 <= j < last ensures !Executes(acts, j) {
          assert !Executes(acts[..last], j);
        }
      } else {
        var j :| 0 <= j < last && Executes(acts[..last], j);
        assert Executes(acts, j);
      }
    }
  }

  /** A handler's taking executes the trade exactly when it last looked before anyone had executed it. So
      two executions are of two handlers that each looked before the other took, and a handler that looks
      and takes with nobody in between never makes a second one. */
  lemma {:induction false} ExecutesExactly(acts: seq<Act>, j: nat)
    requires j < |acts| && acts[j].Take?
    ensures Executes(acts, j)
            <==> exists i :: 0 <= i < j && FoundAt(acts[..j], acts[j].h, i) && forall e ::
                0 <= e < i ==> !Executes(acts, e)
  {
    HeldWasFound(acts[..j], acts[j].h);
    forall i | 0 <= i < j ensures SidesAfter(acts[..j][..i]).pending
        <==> forall e :: 0 <= e < i ==> !Executes(acts, e) {
      PendingUntilExecuted(acts[..i]);
      assert acts[..j][..i] == acts[..i];
      forall e | 0 <= e < i ensures Executes(acts[..i], e) == Executes(acts, e) {
        assert acts[..i][..e] == acts[..e];
      }
    }
    hide SidesAfter;
  }

  /** Each Take comes right after the same handler's Look. */
  predicate Serial(acts: seq<Act>) {
    forall j :: 0 <= j < |acts| && acts[j].Take? ==> j > 0 && acts[j - 1] == Look(acts[j].h)
  }

  lemma {:induction false} SerialOnce(acts: seq<Act>, i: nat, j: nat)
    requires Serial(acts) && i < j < |acts|
    ensures !(Executes(acts, i) && Executes(acts, j))
  {
    if acts[j].Take? {
      ExecutesExactly(acts, j);
      assert acts[..j][j - 1] == Look(acts[j].h);
      hide SidesAfter;
      forall k | 0 <= k < j - 1 ensures !FoundAt(acts[..j], acts[j].h, k) {
        assert k < j - 1 < |acts[..j]|;
      }
    }
  }

  /** Two handlers that both look before either takes both execute. */
  lemma {:induction false} OverlapExecutesTwice(g: nat, h: nat)
    requires g != h
    ensures var acts := [Look(g), Look(h), Take(g), Take(h)]; Executes(acts, 2) && Executes(acts, 3)
  {
    var acts := [Look(g), Look(h), Take(g), Take(h)];
    assert acts[..1] == [Look(g)] && acts[..2] == [Look(g), Look(h)] && acts[..3] == [Look(g), Look(h), Take(g)];
    assert acts[..3][..2] == acts[..2] && acts[..2][..1] == acts[..1] && acts[..1][..0] == [];
    assert SidesAfter(acts[..1]) == Sides(true, {g});
    assert SidesAfter(acts[..2]) == Sides(true, {g, h});
    assert SidesAfter(acts[..3]) == Sides(false, {h});
  }
}
