/** The live signal endpoint (controller/xauusd.js): `getSignal` validates the
    request body, `generateTradingSignal` turns the trend and RSI readings into
    a BUY, a SELL or no trade with a stop and a 2:1 target, and
    `calculatePositionSize` sizes the position from the account balance.
    Responses are modelled as a status code and a body; logging, the reason
    texts and the HTTP plumbing are not. */
module Controller {
  import opened Wrappers
  import opened Numeric

  /** M15 RSI bound for both directions. */
  const TopRsiThreshold: real := 70.16
  /** The stop lies this many ATRs from the entry. */
  const TopAtrMultiplier: real := 1.6
  /** Percentage of the balance risked per trade. */
  const RiskPercent: real := 1.5
  const MinLot: real := 0.01
  const MaxLot: real := 0.1

  /** The request body after sanitising. A number field the client left out
      is `None`: the prices and funds then read as 0 and the indicators as
      null. Strings default to empty. */
  datatype Payload = Payload(
    symbol: string,
    timeframe: string,
    balance: Option<real>,
    equity: Option<real>,
    ask: Option<real>,
    bid: Option<real>,
    trend: string,
    rsiM5: Option<real>,
    rsiM15: Option<real>,
    atrM5: Option<real>)

  datatype Direction = Buy | Sell

  /** What `generateTradingSignal` returns, or the error it throws when the
      stop distance is not positive. */
  datatype Signal = NoTrade | Deal(direction: Direction, entry: real, stopLoss: real, takeProfit: real)
  datatype Outcome = Signalled(signal: Signal) | InvalidPriceMath

  datatype Comment = EmptyPayload | IncompletePayload | NoSignal | ServerError

  datatype Body = NoAction(comment: Comment) | DealBody(direction: Direction, volume: real, sl: real, tp: real)

  datatype Response = Response(status: int, body: Body)

  /** JavaScript truthiness of an optional number: present and non-zero. */
  predicate Truthy(o: Option<real>)
  {
    o.Some? && o.value != 0.0
  }

  function OrZero(o: Option<real>): real
  {
    if o.Some? then o.value else 0.0
  }

  /** `toLowerCase` on ASCII letters; other characters are kept. */
  function ToLower(s: string): (r: string)
    ensures |r| == |s|
    ensures forall k :: 0 <= k < |s| ==> r[k] == LowerChar(s[k])
  {
    if s == [] then [] else [LowerChar(s[0])] + ToLower(s[1..])
  }

  function LowerChar(c: char): (d: char)
    ensures 'A' <= c <= 'Z' ==> 'a' <= d <= 'z'
    ensures !('A' <= c <= 'Z') ==> d == c
  {
    if 'A' <= c <= 'Z' then (c as int - 'A' as int + 'a' as int) as char else c
  }

  predicate IsBullish(t: string)
  {
    t == "bullish" || t == "up" || t == "uptrend"
  }

  predicate IsBearish(t: string)
  {
    t == "bearish" || t == "down" || t == "downtrend"
  }

  /** `generateTradingSignal(trend, rsiM5, rsiM15, atrM5, ask, bid)`. A BUY
      needs a bullish trend, M5 RSI under 30 and M15 RSI under 70.16; a SELL
      a bearish trend, M5 RSI over 70 and M15 RSI over 70.16. A deal enters at
      the ask when bullish and at the bid otherwise, puts the stop 1.6 ATR
      away and the target twice the stop distance the other way; a zero stop
      distance is an error. */
  function GenerateTradingSignal(trend: string, rsiM5: real, rsiM15: real, atrM5: real, ask: real, bid: real): (o: Outcome)
    ensures o == InvalidPriceMath <==>
      atrM5 == 0.0 && ((IsBullish(ToLower(trend)) && rsiM5 < 30.0 && rsiM15 < TopRsiThreshold)
                       || (IsBearish(ToLower(trend)) && rsiM5 > 70.0 && rsiM15 > TopRsiThreshold))
    ensures (o.Signalled? && o.signal.Deal? && o.signal.direction == Buy) <==>
      atrM5 != 0.0 && IsBullish(ToLower(trend)) && rsiM5 < 30.0 && rsiM15 < TopRsiThreshold
    ensures (o.Signalled? && o.signal.Deal? && o.signal.direction == Sell) <==>
      atrM5 != 0.0 && IsBearish(ToLower(trend)) && rsiM5 > 70.0 && rsiM15 > TopRsiThreshold
    ensures o.Signalled? && o.signal.Deal? ==>
      o.signal.entry == (if o.signal.direction == Buy then ask else bid)
      && Abs(o.signal.entry - o.signal.stopLoss) == Abs(atrM5 * TopAtrMultiplier) > 0.0
      && o.signal.takeProfit - o.signal.entry
         == (if o.signal.direction == Buy then 2.0 else -2.0) * Abs(o.signal.entry - o.signal.stopLoss)
  {
    var t := ToLower(trend);
    var isBullish := IsBullish(t);
    var isBearish := IsBearish(t);
    var entryPrice := if isBullish then ask else bid;
    var deal :=
      if isBullish && rsiM5 < 30.0 && rsiM15 < TopRsiThreshold then Some(Buy)
      else if isBearish && rsiM5 > 70.0 && rsiM15 > TopRsiThreshold then Some(Sell)
      else None;
    assert !(isBullish && isBearish);
    if deal.None? then Signalled(NoTrade)
    else
      var sl := if deal.value == Buy then entryPrice - atrM5 * TopAtrMultiplier
                else entryPrice + atrM5 * TopAtrMultiplier;
      var riskDistance := Abs(entryPrice - sl);
      var tp := if deal.value == Buy then entryPrice + riskDistance * 2.0 else entryPrice - riskDistance * 2.0;
      if riskDistance <= 0.0 then InvalidPriceMath
      else Signalled(Deal(deal.value, entryPrice, sl, tp))
  }

  datatype PositionSize = PositionSize(lotSize: real, riskAmount: real, riskPercent: real)

  /** `calculatePositionSize(balance, entry, stopLoss, riskPercent)`: the lots
      that lose `riskPercent` of the balance over the stop distance (a lot
      moving 100 dollars per price unit), clamped to [0.01, 0.1] and rounded
      to cents; 0.01 lots when the stop distance is zero. A zero risk
      percentage means the default 1.5. */
  function CalculatePositionSize(balance: real, entry: real, stopLoss: real, riskPercent: real): (r: PositionSize)
    ensures MinLot <= r.lotSize <= MaxLot
    ensures r.riskPercent == if riskPercent == 0.0 then RiskPercent else riskPercent
    ensures r.riskAmount == balance * (r.riskPercent / 100.0)
    ensures entry == stopLoss ==> r.lotSize == MinLot
    ensures entry != stopLoss ==>
      var raw := r.riskAmount / (Abs(entry - stopLoss) * 100.0);
      && (MinLot <= raw <= MaxLot ==> Abs(r.lotSize - raw) <= 0.005)
      && (raw < MinLot ==> r.lotSize == MinLot)
      && (raw > MaxLot ==> r.lotSize == MaxLot)
    ensures ToFixed(r.lotSize, 2) == r.lotSize
  {
    var riskPct := if riskPercent == 0.0 then RiskPercent else riskPercent;
    var riskAmount := balance * (riskPct / 100.0);
    var stopDistance := Abs(entry - stopLoss);
    if stopDistance <= 0.0 then PositionSize(MinLot, riskAmount, riskPct)
    else
      var lotSize := Clamp(riskAmount / (stopDistance * 100.0), MinLot, MaxLot);
      RoundedLotInRange(lotSize);
      ToFixedError(lotSize, 2);
      ToFixedIdempotent(lotSize, 2);
      ClampEndsAreExact();
      PositionSize(ToFixed(lotSize, 2), riskAmount, riskPct)
  }

  /** The clamp's ends are whole cents, so rounding leaves them unchanged. */
  lemma ClampEndsAreExact()
    ensures ToFixed(MinLot, 2) == MinLot && ToFixed(MaxLot, 2) == MaxLot
  {
    ToFixedExact(1, 2);
    ToFixedExact(10, 2);
  }

  lemma RoundedLotInRange(lots: real)
    requires MinLot <= lots <= MaxLot
    ensures MinLot <= ToFixed(lots, 2) <= MaxLot
  {
    ClampEndsAreExact();
    ToFixedMonotone(MinLot, lots, 2);
    ToFixedMonotone(lots, MaxLot, 2);
  }

  /** The minimal fields are present: a symbol, a non-zero ask or bid, the M5
      RSI and the M5 ATR. */
  predicate Complete(p: Payload)
  {
    p.symbol != "" && (Truthy(p.ask) || Truthy(p.bid)) && p.rsiM5.Some? && p.atrM5.Some?
  }

  /** `balance || equity || 0` */
  function Funds(p: Payload): real
  {
    if Truthy(p.balance) then p.balance.value
    else if Truthy(p.equity) then p.equity.value
    else 0.0
  }

  /** `rsi_M15 || rsi_M5`: the M15 reading, or the M5 one when it is absent
      or zero. */
  function RsiM15OrM5(p: Payload): real
    requires p.rsiM5.Some?
  {
    if Truthy(p.rsiM15) then p.rsiM15.value else p.rsiM5.value
  }

  /** What `generateTradingSignal` answers for a complete payload. */
  function PayloadSignal(p: Payload): Outcome
    requires Complete(p)
  {
    GenerateTradingSignal(ToLower(p.trend), p.rsiM5.value, RsiM15OrM5(p), p.atrM5.value,
                          OrZero(p.ask), OrZero(p.bid))
  }

  /** `getSignal`: 400 for a missing or incomplete payload, 500 when the
      signal's price math fails, otherwise 200 with either no action or a
      deal whose volume, stop and target are rounded for the terminal. The M15
      RSI falls back to the M5 RSI when absent or zero. */
  function GetSignal(payload: Option<Payload>): (r: Response)
    ensures r.status == 400 <==> payload.None? || !Complete(payload.value)
    ensures r.status == 400 ==>
      r.body == NoAction(if payload.None? then EmptyPayload else IncompletePayload)
    ensures r.status in {200, 400, 500}
    ensures r.status == 500 ==> r.body == NoAction(ServerError) && payload.value.atrM5 == Some(0.0)
    ensures r.body.DealBody? ==> r.status == 200 && MinLot <= r.body.volume <= MaxLot
    ensures payload.Some? && Complete(payload.value) ==>
      var p := payload.value;
      var o := PayloadSignal(p);
      && (r.status == 500 <==> o.InvalidPriceMath?)
      && (r == Response(200, NoAction(NoSignal)) <==> o == Signalled(NoTrade))
      && (r.body.DealBody? <==> o.Signalled? && o.signal.Deal?)
      && (r.body.DealBody? ==>
            && r.body.direction == o.signal.direction
            && r.body.volume == CalculatePositionSize(Funds(p), o.signal.entry, o.signal.stopLoss, RiskPercent).lotSize
            && Abs(r.body.sl - o.signal.stopLoss) <= 0.00005
            && Abs(r.body.tp - o.signal.takeProfit) <= 0.00005)
  {
    if payload.None? then Response(400, NoAction(EmptyPayload))
    else
      var p := payload.value;
      if !Complete(p) then Response(400, NoAction(IncompletePayload))
      else
        var outcome := PayloadSignal(p);
        if outcome.InvalidPriceMath? then Response(500, NoAction(ServerError))
        else if outcome.signal.NoTrade? then Response(200, NoAction(NoSignal))
        else
          var s := outcome.signal;
          var size := CalculatePositionSize(Funds(p), s.entry, s.stopLoss, RiskPercent);
          RoundedLotInRange(size.lotSize);
          ToFixedError(s.stopLoss, 4);
          ToFixedError(s.takeProfit, 4);
          Response(200, DealBody(s.direction, ToFixed(size.lotSize, 2),
                                 ToFixed(s.stopLoss, 4), ToFixed(s.takeProfit, 4)))
  }

  /** Lower-casing twice is lower-casing once, so the controller lower-casing
      the trend before `generateTradingSignal` lower-cases it again changes
      nothing. */
  lemma {:induction false} ToLowerIdempotent(s: string)
    ensures ToLower(ToLower(s)) == ToLower(s)
  {
    if s != [] {
      ToLowerIdempotent(s[1..]);
    }
  }

  /** The signal depends on the trend only through its lower-casing: two
      trends that differ only in the case of their letters give the same
      answer, and so does a trend the controller has already lower-cased. */
  lemma TrendIgnoresCase(trend: string, other: string, rsiM5: real, rsiM15: real, atrM5: real, ask: real, bid: real)
    requires ToLower(trend) == ToLower(other)
    ensures GenerateTradingSignal(trend, rsiM5, rsiM15, atrM5, ask, bid)
         == GenerateTradingSignal(other, rsiM5, rsiM15, atrM5, ask, bid)
    ensures GenerateTradingSignal(ToLower(trend), rsiM5, rsiM15, atrM5, ask, bid)
         == GenerateTradingSignal(trend, rsiM5, rsiM15, atrM5, ask, bid)
  {
    ToLowerIdempotent(trend);
  }

  /** For instance, "UpTrend" reads as bullish and "BEARISH" as bearish. */
  lemma MixedCaseTrendNames()
    ensures IsBullish(ToLower("UpTrend")) && IsBearish(ToLower("BEARISH"))
  {
    assert ToLower("UpTrend") == "uptrend";
    assert ToLower("BEARISH") == "bearish";
  }

  /** With a positive ATR a BUY's stop lies below the entry and its target
      above, at twice the stop distance; a SELL mirrors it. */
  lemma DealGeometry(trend: string, rsiM5: real, rsiM15: real, atrM5: real, ask: real, bid: real)
    requires atrM5 > 0.0
    ensures var o := GenerateTradingSignal(trend, rsiM5, rsiM15, atrM5, ask, bid);
      o.Signalled? && o.signal.Deal? ==>
        (o.signal.direction == Buy ==> o.signal.stopLoss < o.signal.entry < o.signal.takeProfit)
        && (o.signal.direction == Sell ==> o.signal.takeProfit < o.signal.entry < o.signal.stopLoss)
        && Abs(o.signal.takeProfit - o.signal.entry) == 2.0 * Abs(o.signal.entry - o.signal.stopLoss)
  {
  }
}
