/** Sizing of the automated orders: what a cycle intends to buy and to sell. */
module Sizing {
  import opened Numbers
  import opened OrderStore
  import opened Text
  import opened Wrappers

  datatype BuyPlan = BuyPlan(symbol: string, limitPrice: real, allocation: real)

  datatype SellPlan = SellPlan(symbol: string)

  /** The parts of a scan report that every intent carries. */
  datatype Scan = Scan(signalDate: string -> string, strategyVersion: string, configuration: string,
                       compliance: string, complianceReason: string, blocked: bool, blockReason: string)

  datatype Account = Account(cash: real, availableFunds: real, buyingPower: real)

  const TOLERANCE := 0.000000001

  function Budget(account: Account): real {
    Min(account.cash, Min(account.availableFunds, account.buyingPower))
  }

  /** Why no BUY may be submitted in this cycle; NoReason when they may. */
  function BuyBlock(scan: Scan): Reason {
    var compliance :=
      if scan.compliance == "" || Upper(scan.compliance) == "OK" then NoReason
      else
        BuyBlocked(if scan.complianceReason != "" then scan.complianceReason
                   else "investable_capital_compliance_failed");
    if !scan.blocked then compliance
    else if scan.blockReason != "" then BuyBlocked(scan.blockReason)
    else if compliance != NoReason then compliance
    else BuyBlocked("buy_submission_blocked")
  }

  /** Python's `round(x, 2)` in exact arithmetic: to the nearest cent, ties to the even one. */
  function Cents(x: real): int {
    var scaled := x * 100.0;
    var below := scaled.Floor;
    var rest := scaled - below as real;
    if rest < 0.5 || (rest == 0.5 && below % 2 == 0) then below else below + 1
  }

  function RoundCents(x: real): real {
    Cents(x) as real / 100.0
  }

  function Quantity(allocation: real, price: real): int {
    if price > 0.0 then (allocation / price).Floor else 0
  }

  /** The quantity is the largest whole number whose cost fits the allocation. */
  lemma QuantityIsLargest(allocation: real, price: real, q: int)
    requires price > 0.0
    ensures q as real * price <= allocation <==> q <= Quantity(allocation, price)
  {
    var shares := allocation / price;
    var largest := Quantity(allocation, price);
    assert shares * price == allocation;
    if q <= largest {
      assert q as real <= shares;
      assert q as real * price <= shares * price;
    } else {
      assert q as real >= (largest + 1) as real > shares;
      assert q as real * price > shares * price;
    }
  }

  lemma RoundCentsIsNearest(x: real)
    ensures -0.005 <= RoundCents(x) - x <= 0.005
  {}

  function Notional(intent: Intent): real {
    if intent.notional.Some? then intent.notional.value else 0.0
  }

  /** The cost of the BUY intents that were not rejected. */
  function Committed(intents: seq<Intent>): real {
    if intents == [] then 0.0
    else
      var last := intents[|intents| - 1];
      Committed(intents[..|intents| - 1]) + if last.rejection == NoReason then Notional(last) else 0.0
  }

  function Verdict(intent: Intent, cashRemaining: real, block: Reason): Reason {
    if block != NoReason then block
    else if intent.quantity <= 0.0 then QuantityNotPositive
    else if Notional(intent) > cashRemaining + TOLERANCE then InsufficientCash
    else NoReason
  }

  function Cost(quantity: real, price: real): (cost: real)
    ensures cost == quantity * price
  {
    quantity * price
  }

  function BuyIntent(plan: BuyPlan, scan: Scan): Intent {
    var symbol := Upper(plan.symbol);
    var limitPrice := RoundCents(plan.limitPrice);
    var quantity := Quantity(plan.allocation, limitPrice) as real;
    Intent(symbol, "BUY", "LIMIT", Some(limitPrice), scan.signalDate(symbol), scan.configuration, scan.strategyVersion,
           quantity, Some(Cost(quantity, limitPrice)), None, NoReason)
  }

  /** Each plan is decided by what the accepted plans before it have left. */
  predicate Decided(intents: seq<Intent>, budget: real, block: Reason) {
    intents == [] ||
    var (init, last) := (intents[..|intents| - 1], intents[|intents| - 1]);
    last.rejection == Verdict(last, budget - Committed(init), block) && Decided(init, budget, block)
  }

  lemma CommittedStep(intents: seq<Intent>, intent: Intent)
    ensures Committed(intents + [intent]) ==
      Committed(intents) + if intent.rejection == NoReason then Notional(intent) else 0.0
  {
    assert (intents + [intent])[..|intents|] == intents;
  }

  lemma DecidedStep(intents: seq<Intent>, intent: Intent, budget: real, block: Reason)
    requires Decided(intents, budget, block)
    requires intent.rejection == Verdict(intent, budget - Committed(intents), block)
    ensures Decided(intents + [intent], budget, block)
  {
    assert (intents + [intent])[..|intents|] == intents;
  }

  /** Accepted plans never overdraw by more than one tolerance, however many there are. */
  lemma {:induction false} DecidedWithinBudget(intents: seq<Intent>, budget: real, block: Reason)
    requires Decided(intents, budget, block)
    requires CostMoney(intents)
    ensures Committed(intents) == 0.0 || 0.0 < Committed(intents) <= budget + TOLERANCE
  {
    if intents != [] {
      var n := |intents| - 1;
      var init := intents[..n];
      assert forall i :: 0 <= i < n ==> init[i] == intents[i];
      DecidedWithinBudget(init, budget, block);
    }
  }

  predicate CostsMoney(intent: Intent) {
    intent.quantity > 0.0 ==> Notional(intent) > 0.0
  }

  lemma PositiveCost(plan: BuyPlan, scan: Scan)
    ensures CostsMoney(BuyIntent(plan, scan))
  {}

  predicate IsBuyFor(intent: Intent, plan: BuyPlan, scan: Scan) {
    intent == BuyIntent(plan, scan).(rejection := intent.rejection)
  }

  lemma BuyStep(intents: seq<Intent>, intent: Intent, plan: BuyPlan, scan: Scan, budget: real, block: Reason)
    requires Decided(intents, budget, block)
    requires IsBuyFor(intent, plan, scan) && intent.rejection == Verdict(intent, budget - Committed(intents), block)
    ensures CostsMoney(intent) && Decided(intents + [intent], budget, block)
    ensures Committed(intents + [intent]) ==
      Committed(intents) + if intent.rejection == NoReason then Notional(intent) else 0.0
  {
    PositiveCost(plan, scan);
    CommittedStep(intents, intent);
    DecidedStep(intents, intent, budget, block);
  }

  /** One intent, decided with the cash that remains. */
  method DecideBuy(plan: BuyPlan, cashRemaining: real, block: Reason, scan: Scan) returns (intent: Intent)
    ensures IsBuyFor(intent, plan, scan) && intent.rejection == Verdict(intent, cashRemaining, block)
  {
    intent := BuyIntent(plan, scan);
    intent := intent.(rejection := Verdict(intent, cashRemaining, block));
  }

  /** An accepted BUY has a positive price within half a cent of the plan's, spends no more than its
      allocation, and one share more would. */
  lemma AcceptedBuyIsLargest(intent: Intent, plan: BuyPlan, scan: Scan, cashRemaining: real, block: Reason, q: int)
    requires IsBuyFor(intent, plan, scan) && Verdict(intent, cashRemaining, block) == NoReason
    ensures var price := RoundCents(plan.limitPrice);
      && price > 0.0 && intent.limitPrice == Some(price) && intent.quantity >= 1.0
      && Notional(intent) == intent.quantity * price <= plan.allocation
      && -0.005 <= price - plan.limitPrice <= 0.005
      && (q as real * price <= plan.allocation <==> q as real <= intent.quantity)
  {
    RoundCentsIsNearest(plan.limitPrice);
    var price := RoundCents(plan.limitPrice);
    var quantity := Quantity(plan.allocation, price);
    QuantityIsLargest(plan.allocation, price, quantity);
    QuantityIsLargest(plan.allocation, price, q);
  }

  ghost predicate BuysFor(intents: seq<Intent>, plans: seq<BuyPlan>, scan: Scan) {
    |intents| <= |plans| && forall i :: 0 <= i < |intents| ==> IsBuyFor(intents[i], plans[i], scan)
  }

  ghost predicate CostMoney(intents: seq<Intent>) {
    forall i :: 0 <= i < |intents| ==> CostsMoney(intents[i])
  }

  lemma BuysForStep(intents: seq<Intent>, intent: Intent, plans: seq<BuyPlan>, scan: Scan)
    requires BuysFor(intents, plans, scan) && |intents| < |plans| && IsBuyFor(intent, plans[|intents|], scan)
    requires CostMoney(intents) && CostsMoney(intent)
    ensures BuysFor(intents + [intent], plans, scan) && CostMoney(intents + [intent])
  {}

  /** The first intents, decided in order with the cash that each leaves to the next. */
  ghost predicate BuysSoFar(intents: seq<Intent>, plans: seq<BuyPlan>, scan: Scan, cashRemaining: real, budget: real,
                            block: Reason) {
    && BuysFor(intents, plans, scan) && CostMoney(intents)
    && Decided(intents, budget, block) && cashRemaining == budget - Committed(intents)
  }

  lemma OneMoreBuy(intents: seq<Intent>, intent: Intent, plans: seq<BuyPlan>, scan: Scan, cashRemaining: real,
                   budget: real, block: Reason)
    requires BuysSoFar(intents, plans, scan, cashRemaining, budget, block) && |intents| < |plans|
    requires IsBuyFor(intent, plans[|intents|], scan) && intent.rejection == Verdict(intent, cashRemaining, block)
    ensures BuysSoFar(intents + [intent], plans, scan,
                      if intent.rejection == NoReason then cashRemaining - Notional(intent) else cashRemaining,
                      budget, block)
  {
    BuyStep(intents, intent, plans[|intents|], scan, budget, block);
    BuysForStep(intents, intent, plans, scan);
  }

  // ---------------------------------------------------------------------
  // What the decisions mean

  /** The three limits of the account, each with its tolerance. */
  predicate Affordable(account: Account, total: real) {
    && total <= account.cash + 0.000000001
    && total <= account.availableFunds + 0.000000001
    && total <= account.buyingPower + 0.000000001
  }

  /** No BUY may be submitted: the scan says so, or the capital check does not say OK. */
  predicate BuyingBlocked(scan: Scan) {
    scan.blocked || (scan.compliance != "" && Upper(scan.compliance) != "OK")
  }

  lemma BudgetIsAffordable(account: Account, total: real)
    ensures total <= Budget(account) + TOLERANCE <==> Affordable(account, total)
  {}

  lemma BlockMeaning(scan: Scan)
    ensures BuyBlock(scan) == NoReason <==> !BuyingBlocked(scan)
    ensures BuyingBlocked(scan) ==> BuyBlock(scan).BuyBlocked?
    ensures BuyingBlocked(scan) ==>
      var failing := scan.compliance != "" && Upper(scan.compliance) != "OK";
      BuyBlock(scan).text ==
        if scan.blocked && scan.blockReason != "" then scan.blockReason
        else if !failing then "buy_submission_blocked"
        else if scan.complianceReason != "" then scan.complianceReason
        else "investable_capital_compliance_failed"
  {}

  /** Intent `i` is accepted exactly if buying is not blocked, at least one share is bought, and what was
      accepted before it and its own cost together stay within all three limits. */
  ghost predicate DecidedAt(intents: seq<Intent>, i: nat, account: Account, scan: Scan)
    requires i < |intents|
  {
    var intent := intents[i];
    var fits := Affordable(account, Committed(intents[..i]) + Notional(intent));
    && (intent.rejection.BuyBlocked? <==> BuyingBlocked(scan))
    && (intent.rejection == QuantityNotPositive <==> !BuyingBlocked(scan) && intent.quantity <= 0.0)
    && (intent.rejection == InsufficientCash <==> !BuyingBlocked(scan) && intent.quantity > 0.0 && !fits)
    && (intent.rejection == NoReason <==> !BuyingBlocked(scan) && intent.quantity > 0.0 && fits)
  }

  ghost predicate AllDecided(intents: seq<Intent>, account: Account, scan: Scan) {
    forall i :: 0 <= i < |intents| ==> DecidedAt(intents, i, account, scan)
  }

  lemma LastDecision(intents: seq<Intent>, account: Account, scan: Scan)
    requires intents != [] && Decided(intents, Budget(account), BuyBlock(scan))
    ensures DecidedAt(intents, |intents| - 1, account, scan)
  {
    var n := |intents| - 1;
    BlockMeaning(scan);
    BudgetIsAffordable(account, Committed(intents[..n]) + Notional(intents[n]));
  }

  lemma {:induction false} DecisionsMean(intents: seq<Intent>, account: Account, scan: Scan)
    requires Decided(intents, Budget(account), BuyBlock(scan))
    ensures AllDecided(intents, account, scan)
  {
    if intents != [] {
      var n := |intents| - 1;
      DecisionsMean(intents[..n], account, scan);
      LastDecision(intents, account, scan);
      forall i | 0 <= i < n ensures DecidedAt(intents, i, account, scan) {
        assert intents[..n][..i] == intents[..i];
        assert DecidedAt(intents[..n], i, account, scan);
      }
    }
  }

  /** What every BUY says, accepted or not: its side and type, a price in whole cents next to the plan's, and
      the largest whole number of shares that the allocation pays for at that price. */
  ghost predicate BuyCarries(intent: Intent, plan: BuyPlan, scan: Scan) {
    && intent.side == "BUY" && intent.orderType == "LIMIT" && intent.symbol == Upper(plan.symbol)
    && intent.signalDate == scan.signalDate(intent.symbol) && intent.submittedAt == None
    && intent.configuration == scan.configuration && intent.strategyVersion == scan.strategyVersion
    && intent.limitPrice.Some? && InCents(intent.limitPrice.value)
    && -0.005 <= intent.limitPrice.value - plan.limitPrice <= 0.005
    && intent.notional == Some(Cost(intent.quantity, intent.limitPrice.value))
    && BuysMost(plan.allocation, intent.limitPrice.value, intent.quantity)
  }

  /** The largest whole number of shares that the allocation pays for; none at a price that is not positive. */
  predicate BuysMost(allocation: real, price: real, quantity: real) {
    && quantity.Floor as real == quantity
    && if price > 0.0 then Cost(quantity, price) <= allocation < Cost(quantity + 1.0, price) else quantity == 0.0
  }

  predicate InCents(x: real) {
    (x * 100.0).Floor as real == x * 100.0
  }

  lemma RoundedIsInCents(x: real)
    ensures InCents(RoundCents(x))
  {
    var n := Cents(x);
    assert RoundCents(x) * 100.0 == n as real;
    assert (n as real).Floor == n;
  }

  /** A price halfway between two cents goes to the even one. */
  lemma TiesGoToEven(n: int)
    ensures RoundCents((n as real + 0.5) / 100.0) == (if n % 2 == 0 then n else n + 1) as real / 100.0
  {
    var x := (n as real + 0.5) / 100.0;
    assert x * 100.0 == n as real + 0.5;
    assert (x * 100.0).Floor == n;
  }

  lemma SharesFit(allocation: real, price: real)
    ensures BuysMost(allocation, price, Quantity(allocation, price) as real)
  {
    var quantity := Quantity(allocation, price);
    assert (quantity as real).Floor == quantity;
    if price > 0.0 {
      QuantityIsLargest(allocation, price, quantity);
      QuantityIsLargest(allocation, price, quantity + 1);
      assert (quantity + 1) as real == quantity as real + 1.0;
    }
  }

  lemma BuyMeaning(intent: Intent, plan: BuyPlan, scan: Scan)
    requires IsBuyFor(intent, plan, scan)
    ensures BuyCarries(intent, plan, scan)
  {
    var price := RoundCents(plan.limitPrice);
    RoundCentsIsNearest(plan.limitPrice);
    RoundedIsInCents(plan.limitPrice);
    SharesFit(plan.allocation, price);
  }

  /** What is accepted in the end stays within all three limits. */
  lemma CommittedIsAffordable(intents: seq<Intent>, account: Account, scan: Scan)
    requires Decided(intents, Budget(account), BuyBlock(scan)) && CostMoney(intents)
    ensures Committed(intents) == 0.0 || Affordable(account, Committed(intents))
  {
    DecidedWithinBudget(intents, Budget(account), BuyBlock(scan));
    BudgetIsAffordable(account, Committed(intents));
  }

  /** The BUYs of a scan: each carries its plan, each is decided by the limits of the account and by what was
      accepted before it, and together the accepted ones stay within the limits. */
  ghost predicate BuysOf(intents: seq<Intent>, plans: seq<BuyPlan>, account: Account, scan: Scan) {
    && |intents| == |plans|
    && (forall i :: 0 <= i < |plans| ==> BuyCarries(intents[i], plans[i], scan))
    && AllDecided(intents, account, scan)
    && (Committed(intents) == 0.0 || Affordable(account, Committed(intents)))
  }

  /** An accepted BUY costs something. */
  lemma AcceptedCosts(intents: seq<Intent>, i: nat, plans: seq<BuyPlan>, account: Account, scan: Scan)
    requires BuysOf(intents, plans, account, scan) && i < |intents| && intents[i].rejection == NoReason
    ensures Notional(intents[i]) > 0.0
  {
    assert DecidedAt(intents, i, account, scan) && BuyCarries(intents[i], plans[i], scan);
    var price := intents[i].limitPrice.value;
    assert price > 0.0;
    CostIsPositive(intents[i].quantity, price);
  }

  lemma CostIsPositive(quantity: real, price: real)
    requires quantity > 0.0 && price > 0.0
    ensures Cost(quantity, price) > 0.0
  {}

  lemma BuysAre(intents: seq<Intent>, plans: seq<BuyPlan>, account: Account, scan: Scan)
    requires |intents| == |plans| && BuysFor(intents, plans, scan) && CostMoney(intents)
    requires Decided(intents, Budget(account), BuyBlock(scan))
    ensures BuysOf(intents, plans, account, scan)
  {
    DecisionsMean(intents, account, scan);
    CommittedIsAffordable(intents, account, scan);
    forall i | 0 <= i < |plans| ensures BuyCarries(intents[i], plans[i], scan) {
      BuyMeaning(intents[i], plans[i], scan);
    }
  }

  /** _buy_intents. */
  method BuyIntents(plans: seq<BuyPlan>, account: Account, scan: Scan) returns (intents: seq<Intent>)
    ensures |intents| == |plans| && BuysFor(intents, plans, scan)
    ensures Decided(intents, Budget(account), BuyBlock(scan))
    ensures BuysOf(intents, plans, account, scan)
  {
    ghost var budget := Budget(account);
    var cashRemaining := Budget(account);
    var block := BuyBlock(scan);
    intents := [];
    for i := 0 to |plans|
      invariant |intents| == i && BuysSoFar(intents, plans, scan, cashRemaining, budget, block)
    {
      var intent := DecideBuy(plans[i], cashRemaining, block, scan);
      OneMoreBuy(intents, intent, plans, scan, cashRemaining, budget, block);
      if intent.rejection == NoReason {
        cashRemaining := cashRemaining - Notional(intent);
      }
      intents := intents + [intent];
    }
    BuysAre(intents, plans, account, scan);
  }

  // ---------------------------------------------------------------------
  // What is sold

  predicate Sells(position: Position, symbol: string) {
    Upper(position.symbol) == symbol && position.quantity > 0.0
  }

  /** The live quantity of the last long position listed under a symbol; 0 when there is none. */
  function LiveQuantity(positions: seq<Position>, symbol: string): real {
    if positions == [] then 0.0
    else
      var n := |positions| - 1;
      if Sells(positions[n], symbol) then positions[n].quantity else LiveQuantity(positions[..n], symbol)
  }

  function SellIntent(plan: SellPlan, quantity: real, scan: Scan): Intent {
    var symbol := Upper(plan.symbol);
    Intent(symbol, "SELL", "MARKET", None, scan.signalDate(symbol), scan.configuration, scan.strategyVersion,
           quantity, None, None, if quantity > 0.0 then NoReason else NoLivePosition)
  }

  /** _sell_intents: the whole live position is sold, and nothing that is not held. */
  method SellIntents(plans: seq<SellPlan>, positions: seq<Position>, scan: Scan) returns (intents: seq<Intent>)
    ensures |intents| == |plans|
    ensures forall i :: 0 <= i < |plans| ==>
      intents[i] == SellIntent(plans[i], LiveQuantity(positions, Upper(plans[i].symbol)), scan)
    ensures forall i :: 0 <= i < |plans| ==> SellCarries(intents[i], plans[i], positions, scan)
  {
    var live: map<string, real> := map[];
    for i := 0 to |positions|
      invariant forall s :: (if s in live then live[s] else 0.0) == LiveQuantity(positions[..i], s)
    {
      assert positions[..i + 1][..i] == positions[..i];
      if positions[i].quantity > 0.0 {
        live := live[Upper(positions[i].symbol) := positions[i].quantity];
      }
    }
    assert positions[..|positions|] == positions;
    intents := [];
    for i := 0 to |plans|
      invariant |intents| == i
      invariant forall k :: 0 <= k < i ==>
        intents[k] == SellIntent(plans[k], LiveQuantity(positions, Upper(plans[k].symbol)), scan)
    {
      var symbol := Upper(plans[i].symbol);
      intents := intents + [SellIntent(plans[i], if symbol in live then live[symbol] else 0.0, scan)];
    }
    forall i | 0 <= i < |plans| ensures SellCarries(intents[i], plans[i], positions, scan) {
      SellMeaning(plans[i], positions, scan);
    }
  }

  /** Position `p` is the last long one listed under the symbol. */
  ghost predicate LastLong(positions: seq<Position>, p: int, symbol: string) {
    && 0 <= p < |positions| && Upper(positions[p].symbol) == symbol && positions[p].quantity > 0.0
    && forall j :: p < j < |positions| && Upper(positions[j].symbol) == symbol ==> positions[j].quantity <= 0.0
  }

  /** What every SELL says: a market order for the whole of the last long position listed under its symbol, or
      a rejection when no long position is listed. */
  ghost predicate SellCarries(intent: Intent, plan: SellPlan, positions: seq<Position>, scan: Scan) {
    && intent.side == "SELL" && intent.orderType == "MARKET" && intent.symbol == Upper(plan.symbol)
    && intent.limitPrice == None && intent.notional == None && intent.submittedAt == None
    && intent.signalDate == scan.signalDate(intent.symbol)
    && intent.configuration == scan.configuration && intent.strategyVersion == scan.strategyVersion
    && (intent.rejection == NoReason <==> exists p :: LastLong(positions, p, intent.symbol))
    && (forall p :: LastLong(positions, p, intent.symbol) ==> intent.quantity == positions[p].quantity)
    && (intent.rejection != NoReason ==> intent.rejection == NoLivePosition && intent.quantity == 0.0)
  }

  lemma {:induction false} LiveQuantityIsLast(positions: seq<Position>, symbol: string)
    ensures LiveQuantity(positions, symbol) > 0.0 <==> exists p :: LastLong(positions, p, symbol)
    ensures forall p :: LastLong(positions, p, symbol) ==> LiveQuantity(positions, symbol) == positions[p].quantity
    ensures LiveQuantity(positions, symbol) >= 0.0
  {
    if positions != [] {
      var n := |positions| - 1;
      var init := positions[..n];
      assert forall j :: 0 <= j < n ==> init[j] == positions[j];
      LiveQuantityIsLast(init, symbol);
      if Sells(positions[n], symbol) {
        assert LastLong(positions, n, symbol);
      } else {
        forall p ensures LastLong(positions, p, symbol) <==> LastLong(init, p, symbol) {}
      }
    }
  }

  lemma SellMeaning(plan: SellPlan, positions: seq<Position>, scan: Scan)
    ensures SellCarries(SellIntent(plan, LiveQuantity(positions, Upper(plan.symbol)), scan), plan, positions, scan)
  {
    LiveQuantityIsLast(positions, Upper(plan.symbol));
  }
}
