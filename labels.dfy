/** The trade direction shared by the decision engine, the order path and the trade monitor. */
module Labels {

  /** "BUY" or "SELL": a final decision and the side of a tracked trade. */
  datatype Side = Buy | Sell {

    /** The string the source uses for this side. */
    function Name(): (s: string)
      ensures s == "BUY" || s == "SELL"
      ensures (s == "BUY") <==> Buy?
    {
      match this
      case Buy => "BUY"
      case Sell => "SELL"
    }
  }
}
