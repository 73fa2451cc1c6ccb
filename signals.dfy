/** The categorical trade signals shared by the indicator interpreters and
    the aggregation of src/analysis/technical.py. */
module Signals {

  /** 'STRONG_BUY', 'BUY', 'HOLD_BUY', 'HOLD', 'HOLD_SELL', 'SELL', 'STRONG_SELL'. */
  datatype Signal = StrongBuy | Buy | HoldBuy | Hold | HoldSell | Sell | StrongSell

  /** `'BUY' in signal_type`. */
  predicate IsBuyFamily(s: Signal)
  {
    s == StrongBuy || s == Buy || s == HoldBuy
  }

  /** `'SELL' in signal_type`. */
  predicate IsSellFamily(s: Signal)
  {
    s == StrongSell || s == Sell || s == HoldSell
  }

  /** The signal with every BUY read as SELL and every SELL as BUY. */
  function Mirror(s: Signal): (m: Signal)
    ensures IsBuyFamily(m) <==> IsSellFamily(s)
    ensures IsSellFamily(m) <==> IsBuyFamily(s)
    ensures m == Hold <==> s == Hold
  {
    match s
    case StrongBuy => StrongSell
    case Buy => Sell
    case HoldBuy => HoldSell
    case Hold => Hold
    case HoldSell => HoldBuy
    case Sell => Buy
    case StrongSell => StrongBuy
  }

  /** Mirroring twice gives back the signal. */
  lemma MirrorInvolution(s: Signal)
    ensures Mirror(Mirror(s)) == s
  {
  }
}
