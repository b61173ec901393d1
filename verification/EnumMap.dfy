/** The enumerations of the gateway and of the exchange, and the maps between them. */
module EnumMap {
  import opened Wrappers

  datatype Side = UNDEFINED | BUY | SELL

  datatype OrderType = UNDEFINED | MARKET | LIMIT

  datatype TimeInForce =
    | UNDEFINED
    | GFD
    | GTC
    | OPG
    | IOC
    | FOK
    | GTX
    | GTD
    | AT_THE_CLOSE
    | GOOD_THROUGH_CROSSING
    | AT_CROSSING
    | GOOD_FOR_TIME
    | GFA
    | GFM

  datatype ExchangeSide = UNDEFINED_INTERNAL | UNKNOWN_INTERNAL | BUY | SELL

  datatype ExchangeType =
    | UNDEFINED_INTERNAL
    | UNKNOWN_INTERNAL
    | LIMIT
    | MARKET
    | STOP_LOSS
    | STOP_LOSS_LIMIT
    | TAKE_PROFIT
    | TAKE_PROFIT_LIMIT
    | LIMIT_MAKER

  datatype ExchangeTimeInForce = UNDEFINED_INTERNAL | UNKNOWN_INTERNAL | GTC | IOC | FOK

  // --- from the gateway to the exchange

  function MapSide(side: Side): ExchangeSide {
    match side
    case UNDEFINED => ExchangeSide.UNDEFINED_INTERNAL
    case BUY => ExchangeSide.BUY
    case SELL => ExchangeSide.SELL
  }

  function MapType(orderType: OrderType): ExchangeType {
    match orderType
    case UNDEFINED => ExchangeType.UNDEFINED_INTERNAL
    case MARKET => ExchangeType.MARKET
    case LIMIT => ExchangeType.LIMIT
  }

  function MapTime(timeInForce: TimeInForce): ExchangeTimeInForce {
    match timeInForce
    case GTC => ExchangeTimeInForce.GTC
    case IOC => ExchangeTimeInForce.IOC
    case FOK => ExchangeTimeInForce.FOK
    case _ => ExchangeTimeInForce.UNDEFINED_INTERNAL
  }

  // --- from the exchange to the gateway

  function SideFrom(side: ExchangeSide): Side {
    match side
    case BUY => Side.BUY
    case SELL => Side.SELL
    case _ => Side.UNDEFINED
  }

  function TypeFrom(orderType: ExchangeType): OrderType {
    match orderType
    case LIMIT => OrderType.LIMIT
    case MARKET => OrderType.MARKET
    case STOP_LOSS => OrderType.MARKET
    case STOP_LOSS_LIMIT => OrderType.LIMIT
    case LIMIT_MAKER => OrderType.LIMIT
    case _ => OrderType.UNDEFINED
  }

  function TimeFrom(timeInForce: ExchangeTimeInForce): TimeInForce {
    match timeInForce
    case GTC => TimeInForce.GTC
    case IOC => TimeInForce.IOC
    case FOK => TimeInForce.FOK
    case _ => TimeInForce.UNDEFINED
  }

  // --- texts; nothing is sent for a value that is not defined

  function SideText(side: ExchangeSide): string {
    match side
    case BUY => "BUY"
    case SELL => "SELL"
    case _ => ""
  }

  function TypeText(orderType: ExchangeType): string {
    match orderType
    case LIMIT => "LIMIT"
    case MARKET => "MARKET"
    case STOP_LOSS => "STOP_LOSS"
    case STOP_LOSS_LIMIT => "STOP_LOSS_LIMIT"
    case TAKE_PROFIT => "TAKE_PROFIT"
    case TAKE_PROFIT_LIMIT => "TAKE_PROFIT_LIMIT"
    case LIMIT_MAKER => "LIMIT_MAKER"
    case _ => ""
  }

  function TimeText(timeInForce: ExchangeTimeInForce): string {
    match timeInForce
    case GTC => "GTC"
    case IOC => "IOC"
    case FOK => "FOK"
    case _ => ""
  }

  function ReadSide(text: string): ExchangeSide {
    match text
    case "" => ExchangeSide.UNDEFINED_INTERNAL
    case "BUY" => ExchangeSide.BUY
    case "SELL" => ExchangeSide.SELL
    case _ => ExchangeSide.UNKNOWN_INTERNAL
  }

  function ReadType(text: string): ExchangeType {
    match text
    case "" => ExchangeType.UNDEFINED_INTERNAL
    case "LIMIT" => ExchangeType.LIMIT
    case "MARKET" => ExchangeType.MARKET
    case "STOP_LOSS" => ExchangeType.STOP_LOSS
    case "STOP_LOSS_LIMIT" => ExchangeType.STOP_LOSS_LIMIT
    case "TAKE_PROFIT" => ExchangeType.TAKE_PROFIT
    case "TAKE_PROFIT_LIMIT" => ExchangeType.TAKE_PROFIT_LIMIT
    case "LIMIT_MAKER" => ExchangeType.LIMIT_MAKER
    case _ => ExchangeType.UNKNOWN_INTERNAL
  }

  function ReadTime(text: string): ExchangeTimeInForce {
    match text
    case "" => ExchangeTimeInForce.UNDEFINED_INTERNAL
    case "GTC" => ExchangeTimeInForce.GTC
    case "IOC" => ExchangeTimeInForce.IOC
    case "FOK" => ExchangeTimeInForce.FOK
    case _ => ExchangeTimeInForce.UNKNOWN_INTERNAL
  }

  lemma ReadTexts(side: ExchangeSide, orderType: ExchangeType, timeInForce: ExchangeTimeInForce)
    ensures side != ExchangeSide.UNKNOWN_INTERNAL ==> ReadSide(SideText(side)) == side
    ensures orderType != ExchangeType.UNKNOWN_INTERNAL ==> ReadType(TypeText(orderType)) == orderType
    ensures timeInForce != ExchangeTimeInForce.UNKNOWN_INTERNAL ==> ReadTime(TimeText(timeInForce)) == timeInForce
  {
  }
}
