/** Broker data types shared by every module: sides, order kinds, quotes, requests, results.
    Prices and money are reals, times are whole seconds of server time, and volumes are whole
    multiples of the symbol's volume step. */
module Protocol {

  const DAY := 86400

  datatype Option<+T> = None | Some(value: T)

  datatype Side = BUY | SELL {
    function Sign(): real { if BUY? then 1.0 else -1.0 }
    function Opposite(): Side { if BUY? then SELL else BUY }
  }

  datatype OrderKind = Buy | Sell | BuyStop | SellStop | BuyLimit | SellLimit {
    predicate IsPending() { !Buy? && !Sell? }
    function GetSide(): Side { if Buy? || BuyStop? || BuyLimit? then BUY else SELL }
  }

  datatype Filling = FOK | IOC | RETURN

  datatype RequestAction = DEAL | PENDING | SLTP | MODIFY | REMOVE

  datatype Tick = Tick(time: int, bid: real, ask: real)

  datatype SpecData = SpecData(
    point: real, tickSize: real, tickValue: real, tickValueLoss: real,
    volumeMin: int, volumeMax: int, volumeStep: real,
    stopsLevel: nat, fillings: set<Filling>, disabled: bool)

  /** A symbol specification: its grids are positive, so prices and volumes can be divided by them. */
  type Spec = s: SpecData | s.point > 0.0 && s.tickSize > 0.0 && s.volumeStep > 0.0
    witness SpecData(1.0, 1.0, 1.0, 1.0, 1, 1, 1.0, 0, {}, false)

  datatype Position = Position(
    ticket: int, symbol: string, side: Side, volume: int, priceOpen: real,
    sl: real, tp: real, magic: int, comment: string, time: int)

  datatype PendingOrder = PendingOrder(
    ticket: int, symbol: string, kind: OrderKind, volume: int, price: real,
    sl: real, tp: real, magic: int, comment: string, timeSetup: int, expiration: Option<int>)

  datatype Entry = IN | OUT

  datatype Deal = Deal(
    ticket: int, order: int, positionId: int, symbol: string, side: Side, entry: Entry,
    volume: int, price: real, profit: real, commission: real,
    magic: int, comment: string, time: int)

  datatype OrderRequest = OrderRequest(
    action: RequestAction, symbol: string, volume: int, kind: OrderKind,
    price: real, sl: real, tp: real, deviation: int, magic: int, comment: string,
    filling: Filling, expiration: Option<int>, positionTicket: int, orderTicket: int)

  datatype OrderResult = OrderResult(retcode: int, deal: int, order: int, volume: int, price: real)

  /** What the caller of `order_send` gets: no result object, an exception, or a result. */
  datatype Reply = NoResult | Raised | Got(result: OrderResult)

  function Abs(x: real): real { if x < 0.0 then -x else x }

  function Min(a: int, b: int): int { if a <= b then a else b }

  function Max(a: int, b: int): int { if a >= b then a else b }

  /** Rounding to the nearest integer, ties to even. */
  function RoundHalfEven(x: real): (n: int)
    ensures n as real - 0.5 <= x <= n as real + 0.5
  {
    var f := x.Floor;
    var d := x - f as real;
    if d < 0.5 then f else if d > 0.5 then f + 1 else if f % 2 == 0 then f else f + 1
  }

  /** A price snapped to the symbol's tick grid. */
  function RoundPrice(spec: Spec, price: real): real
  {
    RoundHalfEven(price / spec.tickSize) as real * spec.tickSize
  }

  lemma SomeMember(s: set<int>)
    ensures s == {} || exists x :: x in s
  {
    if forall x :: x !in s {
      assert s == {};
    }
  }

  lemma SubsetSize<T>(a: set<T>, b: set<T>)
    requires a <= b
    ensures |a| <= |b|
  {
    assert b == a + (b - a);
  }

  function Lots(spec: Spec, volume: int): real { volume as real * spec.volumeStep }
}
