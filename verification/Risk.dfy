/** Order limits checked before an order is placed (execution/risk.py). */
module Risk {
  import opened Rounding
  import opened Ledger
  import opened Positions
  import opened PlainSums

  datatype RiskConfig = RiskConfig(maxOrderKrw: real, maxDailyLossKrw: real, maxPositionRatio: real)

  /** The check raises a division error when it would clamp an order at price zero. */
  datatype Verdict = Approved(quantity: real) | LossLimit | RatioLimit | DivisionError

  predicate Clampable(cfg: RiskConfig, quantity: real, price: real) {
    price != 0.0 || Value(quantity, price) <= cfg.maxOrderKrw
  }

  /** An order above the single-order limit is cut to the quantity that limit buys. */
  function Clamp(cfg: RiskConfig, quantity: real, price: real): real
    requires Clampable(cfg, quantity, price)
  {
    if Value(quantity, price) > cfg.maxOrderKrw then Quantize(cfg.maxOrderKrw / price, Satoshi) else quantity
  }

  /** A sale that would realise a loss counts against the daily limit. */
  predicate LossTooLarge(cfg: RiskConfig, dailyLoss: real, position: Position, price: real) {
    position.IsOpen() && position.UnrealizedPnl(price) < 0.0
    && dailyLoss + -position.UnrealizedPnl(price) > cfg.maxDailyLossKrw
  }

  function PositionRatio(value: real, available: real): real {
    if available + value > 0.0 then value / (available + value) else 0.0
  }

  function Judge(cfg: RiskConfig, dailyLoss: real, position: Position, available: real, side: Side, quantity: real,
                 price: real)
    : Verdict
  {
    if !Clampable(cfg, quantity, price) then DivisionError
    else
    var allowed := Clamp(cfg, quantity, price);
    if side == Sell && LossTooLarge(cfg, dailyLoss, position, price) then LossLimit
    else if side == Buy && PositionRatio(Value(allowed, price), available) > cfg.maxPositionRatio then RatioLimit
    else Approved(allowed)
  }

  class RiskManager {
    const cfg: RiskConfig
    var dailyLoss: real
    var resetDay: int

    constructor (cfg: RiskConfig, today: int)
      ensures this.cfg == cfg && dailyLoss == 0.0 && resetDay == today
    {
      this.cfg, dailyLoss, resetDay := cfg, 0.0, today;
    }

    /** The day's counter starts again when the date has changed. */
    method Check(position: Position, available: real, side: Side, quantity: real, price: real, today: int)
      returns (verdict: Verdict)
      modifies this
      ensures resetDay == today && dailyLoss == if today == old(resetDay) then old(dailyLoss) else 0.0
      ensures verdict == Judge(cfg, dailyLoss, position, available, side, quantity, price)
    {
      hide Value;
      if today != resetDay {
        ResetDailyLoss(today);
      }
      var allowed := quantity;
      var orderValue := Value(allowed, price);
      if orderValue > cfg.maxOrderKrw {
        if price == 0.0 {
          return DivisionError;
        }
        allowed := Quantize(cfg.maxOrderKrw / price, Satoshi);
        orderValue := Value(allowed, price);
      }
      if side == Side.Sell {
        if position.IsOpen() {
          var unrealized := position.UnrealizedPnl(price);
          if unrealized < 0.0 {
            var projected := dailyLoss + -unrealized;
            if projected > cfg.maxDailyLossKrw {
              return LossLimit;
            }
          }
        }
      }
      if side == Side.Buy {
        var total := available + orderValue;
        var ratio := if total > 0.0 then orderValue / total else 0.0;
        if ratio > cfg.maxPositionRatio {
          return RatioLimit;
        }
      }
      verdict := Approved(allowed);
    }

    method RecordLoss(amount: real)
      modifies this`dailyLoss
      ensures dailyLoss == if amount > 0.0 then old(dailyLoss) + amount else old(dailyLoss)
    {
      if amount > 0.0 {
        dailyLoss := dailyLoss + amount;
      }
    }

    method ResetDailyLoss(today: int)
      modifies this
      ensures dailyLoss == 0.0 && resetDay == today
    {
      dailyLoss, resetDay := 0.0, today;
    }
  }

  // ---- laws ----

  lemma QuotientOrder(x: real, y: real, price: real)
    requires price > 0.0
    ensures x < Value(y, price) <==> x / price < y
    ensures Value(x / price, price) == x
  {
    var q := x / price;
    assert q * price == x;
  }

  lemma ValueGrows(x: real, y: real, price: real)
    requires price > 0.0 && x <= y
    ensures Value(x, price) <= Value(y, price)
  {
  }

  lemma ValueOfSum(x: real, y: real, price: real)
    ensures Value(x + y, price) == Value(x, price) + Value(y, price)
  {
  }

  /** Cutting an order keeps it within half a quantity unit of the limit, and never makes an on-grid quantity larger. */
  lemma ClampWithinLimit(cfg: RiskConfig, quantity: real, price: real)
    requires price > 0.0
    ensures Value(Clamp(cfg, quantity, price), price) <= cfg.maxOrderKrw + Value(HalfUnit(Satoshi), price)
    ensures OnGrid(quantity, Satoshi) ==> Clamp(cfg, quantity, price) <= quantity
  {
    hide Value;
    hide Quantize;
    var exact, half := cfg.maxOrderKrw / price, HalfUnit(Satoshi);
    QuotientOrder(cfg.maxOrderKrw, quantity, price);
    QuantizeNear(exact, Satoshi);
    ValueGrows(Quantize(exact, Satoshi), exact + half, price);
    ValueOfSum(exact, half, price);
    ValueGrows(0.0, half, price);
    ValueOfSum(0.0, 0.0, price);
    if OnGrid(quantity, Satoshi) && exact < quantity {
      QuantizeMonotone(exact, quantity, Satoshi);
      QuantizeOnGrid(quantity, Satoshi);
    }
  }

  lemma RatioMeans(value: real, available: real, ratio: real)
    requires available + value > 0.0
    ensures PositionRatio(value, available) <= ratio <==> value * (1.0 - ratio) <= ratio * available
  {
    var total := available + value;
    var q := value / total;
    assert q * total == value;
    RatioOrder(q, ratio, total);
    assert ratio * total == ratio * available + ratio * value;
    assert value * (1.0 - ratio) == value - ratio * value;
  }

  lemma RatioOrder(q: real, r: real, total: real)
    requires total > 0.0
    ensures q <= r <==> q * total <= r * total
  {
    if q > r { assert (q - r) * total > 0.0; }
    assert (r - q) * total == r * total - q * total;
  }

  /**
    The value is within the ratio of the cash plus itself; where cash and value are not positive the ratio counts
    as zero.
   */
  predicate WithinRatio(cfg: RiskConfig, value: real, available: real) {
    if available + value > 0.0 then value * (1.0 - cfg.maxPositionRatio) <= cfg.maxPositionRatio * available
    else 0.0 <= cfg.maxPositionRatio
  }

  /** Exactly which purchases pass: those whose clamped value is within the ratio. */
  lemma ApprovedBuy(cfg: RiskConfig, dailyLoss: real, position: Position, available: real, quantity: real, price: real)
    ensures Judge(cfg, dailyLoss, position, available, Side.Buy, quantity, price).Approved?
      <==> Clampable(cfg, quantity, price) && WithinRatio(cfg, Value(Clamp(cfg, quantity, price), price), available)
  {
    hide Clamp;
    hide Value;
    if Clampable(cfg, quantity, price) {
      var value := Value(Clamp(cfg, quantity, price), price);
      if available + value > 0.0 {
        RatioMeans(value, available, cfg.maxPositionRatio);
      }
    }
  }

  // ---- the verdict in plain numbers ----

  /** The quantity let through: as asked up to the limit, and what the limit buys, in whole units, above it. */
  ghost predicate IsClamped(cfg: RiskConfig, quantity: real, price: real, allowed: real) {
    if Times(quantity, price) <= cfg.maxOrderKrw then allowed == quantity
    else price != 0.0 && IsRounded(allowed, cfg.maxOrderKrw / price, 100_000_000.0)
  }

  lemma ClampIs(cfg: RiskConfig, quantity: real, price: real)
    requires Clampable(cfg, quantity, price)
    ensures IsClamped(cfg, quantity, price, Clamp(cfg, quantity, price))
  {
    assert Value(quantity, price) == Times(quantity, price);
    if price != 0.0 { QuantizeIsRounded(cfg.maxOrderKrw / price); }
    hide Value;
    hide Times;
    hide Quantize;
    hide IsRounded;
  }

  /** The loss a sale of the whole position would realise, and whether that takes the day's losses over the limit. */
  predicate OverLossLimit(cfg: RiskConfig, dailyLoss: real, position: Position, price: real) {
    var loss := Times(position.quantity, position.avgPrice - price);
    position.quantity > 0.0 && loss > 0.0 && dailyLoss + loss > cfg.maxDailyLossKrw
  }

  lemma LossIs(position: Position, price: real)
    ensures position.UnrealizedPnl(price) == -Times(position.quantity, position.avgPrice - price)
  {
  }

  /** The whole verdict. */
  lemma JudgeIs(cfg: RiskConfig, dailyLoss: real, position: Position, available: real, side: Side, quantity: real,
                price: real)
    ensures match Judge(cfg, dailyLoss, position, available, side, quantity, price)
      case DivisionError => price == 0.0 && Times(quantity, price) > cfg.maxOrderKrw
      case LossLimit => side == Sell && OverLossLimit(cfg, dailyLoss, position, price)
      case RatioLimit =>
        side == Buy && exists allowed ::
          IsClamped(cfg, quantity, price, allowed) && !WithinRatio(cfg, Times(allowed, price), available)
      case Approved(allowed) =>
        && IsClamped(cfg, quantity, price, allowed)
        && (side == Sell ==> !OverLossLimit(cfg, dailyLoss, position, price))
        && (side == Buy ==> WithinRatio(cfg, Times(allowed, price), available))
  {
    assert Value(quantity, price) == Times(quantity, price);
    LossIs(position, price);
    if Clampable(cfg, quantity, price) {
      var allowed := Clamp(cfg, quantity, price);
      ClampIs(cfg, quantity, price);
      assert Value(allowed, price) == Times(allowed, price);
      ApprovedBuy(cfg, dailyLoss, position, available, quantity, price);
    }
    hide Clamp;
    hide IsClamped;
    hide WithinRatio;
    hide PositionRatio;
    hide Value;
    hide Times;
  }
}
