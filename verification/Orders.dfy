/** The order manager's gate and sizing (execution/order_manager.py), one atomic segment at a time. */
module Orders {
  import opened Options
  import opened Rounding
  import opened Signals
  import opened Ledger
  import opened Risk

  datatype Settings = Settings(defaultOrderKrw: real, cooldownSec: real, dcaSplitCount: int, risk: RiskConfig)

  /** At least one piece, as the constructor makes sure. */
  function Pieces(cfg: Settings): nat {
    if cfg.dcaSplitCount < 1 then 1 else cfg.dcaSplitCount
  }

  predicate GateOpen(cfg: Settings, lastOrder: map<string, real>, symbol: string, now: real) {
    symbol in lastOrder ==> now - lastOrder[symbol] >= cfg.cooldownSec
  }

  /** The quantity asked for: the same amount of money for both sides, whatever is held. */
  function Asked(cfg: Settings, price: real): real
    requires price != 0.0
  {
    Quantize(cfg.defaultOrderKrw / price, Satoshi)
  }

  function OrderSide(kind: SignalType): Side {
    if kind == BUY then Side.Buy else Side.Sell
  }

  /** Only purchases are split. */
  predicate Split(cfg: Settings, side: Side) {
    Pieces(cfg) > 1 && side == Side.Buy
  }

  function PieceCount(cfg: Settings, side: Side): nat {
    if Split(cfg, side) then Pieces(cfg) else 1
  }

  /** What one submission of an approved quantity carries. */
  function PieceQuantity(cfg: Settings, side: Side, approved: real): real {
    if Split(cfg, side) then Quantize(approved / Pieces(cfg) as real, Satoshi) else approved
  }

  /** The quantity a price is worth the default amount at, in whole units. */
  lemma AskedIs(cfg: Settings, price: real)
    requires price != 0.0
    ensures IsRounded(Asked(cfg, price), cfg.defaultOrderKrw / price, 100_000_000.0)
    ensures price > 0.0 ==> IsWorth(Asked(cfg, price), price, cfg.defaultOrderKrw)
  {
    QuantizeIsRounded(cfg.defaultOrderKrw / price);
    hide Quantize;
    hide IsRounded;
    if price > 0.0 { QuantityWorth(Asked(cfg, price), price, cfg.defaultOrderKrw); }
  }

  /** Purchases are split when the count is above one, into that many equal pieces in whole units. */
  lemma PiecesAre(cfg: Settings, side: Side, approved: real)
    ensures var piece := PieceQuantity(cfg, side, approved);
      if side == Buy && cfg.dcaSplitCount > 1
      then PieceCount(cfg, side) == cfg.dcaSplitCount
           && IsRounded(piece, approved / cfg.dcaSplitCount as real, 100_000_000.0)
      else PieceCount(cfg, side) == 1 && piece == approved
  {
    QuantizeIsRounded(approved / Pieces(cfg) as real);
    hide Quantize;
    hide IsRounded;
  }

  class OrderManager {
    const cfg: Settings
    var lastOrderTime: map<string, real>

    constructor (cfg: Settings)
      ensures this.cfg == cfg && lastOrderTime == map[]
    {
      this.cfg, lastOrderTime := cfg, map[];
    }

    /**
      on_signal from the resumption after the signal was saved to the await of the risk check: HOLD test,
      gate test and gate write without a suspension point between them, then sizing.  A price of zero raises
      the program's division error after the gate has been written; it yields no quantity either.
     */
    method PassGate(symbol: string, kind: SignalType, price: real, now: real) returns (asked: Option<real>)
      modifies this
      ensures var passes := kind != HOLD && GateOpen(cfg, old(lastOrderTime), symbol, now);
        && lastOrderTime == (if passes then old(lastOrderTime)[symbol := now] else old(lastOrderTime))
        && asked == (if passes && price != 0.0 then Some(Asked(cfg, price)) else None)
      ensures asked.Some? ==>
        && IsRounded(asked.value, cfg.defaultOrderKrw / price, 100_000_000.0)
        && (price > 0.0 ==> IsWorth(asked.value, price, cfg.defaultOrderKrw))
    {
      if price != 0.0 { AskedIs(cfg, price); }
      hide IsRounded;
      hide IsWorth;
      hide Quantize;
      if kind == HOLD {
        return None;
      }
      if symbol in lastOrderTime && now - lastOrderTime[symbol] < cfg.cooldownSec {
        return None;
      }
      lastOrderTime := lastOrderTime[symbol := now];
      if price == 0.0 {
        return None;
      }
      asked := Some(Quantize(cfg.defaultOrderKrw / price, Satoshi));
    }
  }

  // ---- the sizing chain ----

  lemma Scaled(n: real, x: real, y: real)
    requires n >= 0.0 && x <= y
    ensures n * x <= n * y
  {
  }

  lemma SplitBound(q: real, approved: real, h: real, n: real, price: real, limit: real)
    requires n > 0.0 && price > 0.0 && q <= approved / n + h && approved * price <= limit + h * price
    ensures n * q * price <= limit + (n + 1.0) * (h * price)
  {
    var exact, total, unit := approved / n, n * q, h * price;
    Scaled(n, q, exact + h);
    assert n * exact == approved;
    assert total <= approved + n * h;
    Scaled(price, total, approved + n * h);
    assert (approved + n * h) * price == approved * price + n * unit;
    assert (n + 1.0) * unit == n * unit + unit;
  }

  /** All the pieces together cost at most the single-order limit, plus half a quantity unit for each rounding. */
  predicate PiecesWithinLimit(cfg: Settings, side: Side, piece: real, price: real) {
    var n := PieceCount(cfg, side) as real;
    n * piece * price <= cfg.risk.maxOrderKrw + (n + 1.0) * (HalfUnit(Satoshi) * price)
  }

  /** Whatever quantity the risk check clamps, the pieces submitted for it keep to the limit. */
  lemma SizingChain(cfg: Settings, side: Side, quantity: real, price: real)
    requires price > 0.0
    ensures PiecesWithinLimit(cfg, side, PieceQuantity(cfg, side, Clamp(cfg.risk, quantity, price)), price)
  {
    hide Quantize;
    hide Clamp;
    hide Pieces;
    var n := PieceCount(cfg, side) as real;
    var approved, h := Clamp(cfg.risk, quantity, price), HalfUnit(Satoshi);
    var piece := PieceQuantity(cfg, side, approved);
    ClampWithinLimit(cfg.risk, quantity, price);
    assert approved * price <= cfg.risk.maxOrderKrw + h * price;
    assert piece <= approved / n + h by {
      QuantizeNear(approved / n, Satoshi);
      assert Split(cfg, side) || n == 1.0;
    }
    SplitBound(piece, approved, h, n, price, cfg.risk.maxOrderKrw);
    hide PieceQuantity;
  }
}
