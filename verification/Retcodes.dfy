/** Trade return codes and the policy table that drives the execution engine. */
module Retcodes {
  import opened Protocol

  const REQUOTE := 10004
  const REJECT := 10006
  const PLACED := 10008
  const DONE := 10009
  const DONE_PARTIAL := 10010
  const TIMEOUT := 10012
  const INVALID := 10013
  const INVALID_VOLUME := 10014
  const INVALID_PRICE := 10015
  const INVALID_STOPS := 10016
  const TRADE_DISABLED := 10017
  const MARKET_CLOSED := 10018
  const NO_MONEY := 10019
  const PRICE_CHANGED := 10020
  const PRICE_OFF := 10021
  const TOO_MANY_REQUESTS := 10024
  const SERVER_DISABLES_AT := 10026
  const CLIENT_DISABLES_AT := 10027
  const INVALID_FILL := 10030
  const CONNECTION := 10031

  datatype Policy =
    | VERIFY_FILL | ACCEPT_PARTIAL | RETRY_REFRESH | RECOMPUTE_STOPS_ONCE | RETRY_ONCE
    | REJECT_REFRESH_SPECS | REJECT_QUARANTINE | DEFER_DATA_CHECK | REJECT_HALT_ENTRIES
    | HALT_TRADING_DISABLED | BACKOFF_STORM_CHECK | UNKNOWN_OUTCOME | SWITCH_FILLING_ONCE
    | REJECT_FINAL

  /** The policy of one return code; a missing result object is an unknown outcome by definition. */
  function ActionFor(retcode: Option<int>): Policy
  {
    match retcode
    case None => UNKNOWN_OUTCOME
    case Some(code) =>
      if code == DONE || code == PLACED then VERIFY_FILL
      else if code == DONE_PARTIAL then ACCEPT_PARTIAL
      else if code == REQUOTE || code == PRICE_CHANGED || code == INVALID_PRICE then RETRY_REFRESH
      else if code == INVALID_STOPS then RECOMPUTE_STOPS_ONCE
      else if code == REJECT then RETRY_ONCE
      else if code == INVALID_VOLUME then REJECT_REFRESH_SPECS
      else if code == INVALID then REJECT_QUARANTINE
      else if code == MARKET_CLOSED || code == PRICE_OFF then DEFER_DATA_CHECK
      else if code == NO_MONEY then REJECT_HALT_ENTRIES
      else if code == TRADE_DISABLED || code == SERVER_DISABLES_AT || code == CLIENT_DISABLES_AT then HALT_TRADING_DISABLED
      else if code == TOO_MANY_REQUESTS then BACKOFF_STORM_CHECK
      else if code == CONNECTION || code == TIMEOUT then UNKNOWN_OUTCOME
      else if code == INVALID_FILL then SWITCH_FILLING_ONCE
      else REJECT_FINAL
  }

  /** The return code the engine reads off a reply: an exception counts as no result at all. */
  function CodeOf(reply: Reply): Option<int>
  {
    if reply.Got? then Some(reply.result.retcode) else None
  }

  /** A reply after which the order may have taken effect. */
  predicate MayHaveExecuted(reply: Reply)
  {
    var action := ActionFor(CodeOf(reply));
    action.VERIFY_FILL? || action.ACCEPT_PARTIAL? || action.UNKNOWN_OUTCOME?
  }

  /** The policy of every return code, by number. */
  lemma PolicyTable(code: int)
    ensures var action := ActionFor(Some(code));
      && (action.VERIFY_FILL? <==> code == 10008 || code == 10009) && (action.ACCEPT_PARTIAL? <==> code == 10010)
      && (action.UNKNOWN_OUTCOME? <==> code == 10012 || code == 10031)
      && (action.RETRY_REFRESH? <==> code == 10004 || code == 10015 || code == 10020)
      && (action.RECOMPUTE_STOPS_ONCE? <==> code == 10016) && (action.RETRY_ONCE? <==> code == 10006)
      && (action.SWITCH_FILLING_ONCE? <==> code == 10030) && (action.BACKOFF_STORM_CHECK? <==> code == 10024)
      && (action.REJECT_HALT_ENTRIES? <==> code == 10019) && (action.REJECT_QUARANTINE? <==> code == 10013)
      && (action.HALT_TRADING_DISABLED? <==> code == 10017 || code == 10026 || code == 10027)
      && (action.DEFER_DATA_CHECK? <==> code == 10018 || code == 10021) && (action.REJECT_REFRESH_SPECS? <==> code == 10014)
    ensures ActionFor(None).UNKNOWN_OUTCOME?
  {
  }
}
