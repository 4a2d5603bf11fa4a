/**
 * The stateful parts of `external_apis.py`: the Yahoo client's backoff
 * fields, the manager's market provider, the per-code send times and the
 * technical buffer of `notify_alert`, and the Telegram poller's error
 * counter and update offset. Each method is proved against `ExternalSpec`.
 */
module ExternalApis {
  import opened Wrappers
  import opened Text
  import opened RunnerSpec
  import opened ExternalSpec

  /** `_backoff_sec` and `_next_allowed_ts` of `YahooFinanceClient`. */
  class YahooLimiter {
    var backoffSec: real
    var nextAllowedTs: real

    ghost predicate Valid()
      reads this
    {
      backoffSec >= 0.0
    }

    constructor()
      ensures Valid() && backoffSec == 0.0 && nextAllowedTs == 0.0
    {
      backoffSec := 0.0;
      nextAllowedTs := 0.0;
    }

    /** `_rate_limited` at time `now`. */
    predicate RateLimited(now: real)
      reads this
    {
      now < nextAllowedTs
    }

    /** `_note_429` at time `now`, with the jitter drawn from [0.2, 0.8]. */
    method Note429(now: real, jitter: real)
      requires Valid() && 0.2 <= jitter <= 0.8
      modifies this
      ensures Valid()
      ensures backoffSec == NextBackoff(old(backoffSec))
      ensures nextAllowedTs == now + backoffSec + jitter
      ensures forall t :: now <= t < now + MinBackoff ==> RateLimited(t)
    {
      backoffSec := NextBackoff(backoffSec);
      nextAllowedTs := now + backoffSec + jitter;
    }

    /** `_note_success`: eases the backoff, and lifts the wait once it is back to zero. */
    method NoteSuccess()
      requires Valid()
      modifies this
      ensures Valid()
      ensures backoffSec == EasedBackoff(old(backoffSec))
      ensures nextAllowedTs == if old(backoffSec) != 0.0 && backoffSec == 0.0 then 0.0 else old(nextAllowedTs)
    {
      if backoffSec != 0.0 {
        backoffSec := Max0(Halve(backoffSec));
        if backoffSec == 0.0 {
          nextAllowedTs := 0.0;
        }
      }
    }
  }

  /** `max(0.0, x)`. */
  function Max0(x: real): (r: real)
    ensures r >= 0.0 && r >= x
    ensures x >= 0.0 ==> r == x
  {
    if x < 0.0 then 0.0 else x
  }

  /** `APIManager.market`, the client market data comes from. */
  class MarketSelector {
    var market: Provider

    /** With the values of `MARKET_DATA_PROVIDER` and `ALPHA_VANTAGE_KEY`, if set. */
    constructor(envProvider: Option<string>, alphaKey: Option<string>)
      ensures market == InitialProvider(envProvider, alphaKey)
    {
      market := InitialProvider(envProvider, alphaKey);
    }

    /** `get_market_provider`. */
    function GetMarketProvider(): string
      reads this
    {
      ProviderName(market)
    }

    /** `set_market_provider` with the value of `ALPHA_VANTAGE_KEY`, if set. */
    method SetMarketProvider(requested: string, alphaKey: Option<string>) returns (chosen: string)
      modifies this
      ensures market == ChooseProvider(requested, alphaKey)
      ensures chosen == GetMarketProvider()
      ensures chosen == "alpha" <==> Lower(Strip(requested)) == "alpha" && alphaKey.Some? && alphaKey.value != []
      ensures chosen == "alpha" || chosen == "yahoo"
    {
      var p := Lower(Strip(requested));
      if p == "alpha" {
        if alphaKey.Some? && alphaKey.value != [] {
          market := Alpha;
          return "alpha";
        }
        market := Yahoo;
        return "yahoo";
      }
      market := Yahoo;
      return "yahoo";
    }
  }

  /** `_is_valid_series`, scanning the payload's items in order. */
  method CheckSeries(data: Option<Series>) returns (ok: bool)
    ensures ok == IsValidSeries(data)
  {
    if data.None? || data.value == [] {
      return false;
    }
    var items := data.value;
    var i := 0;
    while i < |items|
      invariant i <= |items|
      invariant ScanSeries(items, 0) == ScanSeries(items, i)
    {
      if SeriesEntry(items[i]) {
        return true;
      }
      i := i + 1;
    }
    return false;
  }

  /** An entry of the technical buffer: time, code, message, level, and whether it was sent. */
  datatype BufferItem = BufferItem(ts: real, code: string, message: string, level: string, sent: bool)

  /** The notification state of `APIManager`: per-code send times and the technical buffer. */
  class Notifier {
    /** `_notify_last_ts`: when each code key was last sent. */
    var lastSent: map<string, real>
    /** `_notify_min_interval_sec`. */
    var minInterval: real
    /** `_tech_buffer`: technical signals of the current window. */
    var techBuffer: seq<BufferItem>

    /** With `ALERT_MIN_INTERVAL_SEC` as a number, None when unset or not a number. */
    constructor(intervalEnv: Option<real>)
      ensures lastSent == map[] && minInterval == intervalEnv.GetOr(30.0) && techBuffer == []
    {
      lastSent := map[];
      minInterval := intervalEnv.GetOr(30.0);
      techBuffer := [];
    }

    /**
     * `notify_alert` at time `now`, with the configuration (None when it
     * cannot be read), whether Telegram accepted the message if one is sent,
     * and the time the send finished. Returns what the source returns.
     */
    method NotifyAlert(levelText: string, code: string, message: string, now: real,
                       cfg: Option<NotifyConfig>, delivered: bool, sentAt: real)
      returns (ok: bool)
      modifies this
      ensures var route := Decide(old(lastSent), old(minInterval), cfg.GetOr(FallbackConfig), levelText, code, now, old(techBuffer) == []);
        && (route == Quiet || route == Coalesce ==> ok && lastSent == old(lastSent))
        && (route == Send || route == SendFirst ==> ok == delivered)
        && (route == Send || route == SendFirst ==>
              lastSent == if delivered then old(lastSent)[CodeKey(code) := sentAt] else old(lastSent))
        && (route == Quiet || route == Send ==> techBuffer == old(techBuffer))
        && (route == Coalesce ==> techBuffer == old(techBuffer) + [BufferItem(now, code, message, LevelOrInfo(levelText), false)])
        && (route == SendFirst ==> techBuffer == [BufferItem(now, code, message, LevelOrInfo(levelText), delivered)])
      ensures minInterval == old(minInterval)
    {
      var config := cfg.GetOr(FallbackConfig);
      var route := Decide(lastSent, minInterval, config, levelText, code, now, techBuffer == []);
      ok := true;
      match route
      case Quiet =>
      case Coalesce =>
        techBuffer := techBuffer + [BufferItem(now, code, message, LevelOrInfo(levelText), false)];
      case SendFirst =>
        techBuffer := techBuffer + [BufferItem(now, code, message, LevelOrInfo(levelText), false)];
        ok := delivered;
        if ok {
          lastSent := lastSent[CodeKey(code) := sentAt];
          techBuffer := techBuffer[|techBuffer| - 1 := techBuffer[|techBuffer| - 1].(sent := true)];
        }
      case Send =>
        ok := delivered;
        if ok {
          lastSent := lastSent[CodeKey(code) := sentAt];
        }
    }
  }

  /** `level or 'INFO'` with the uppercased level. */
  function LevelOrInfo(levelText: string): (r: string)
    ensures r != []
  {
    if Upper(levelText) == [] then "INFO" else Upper(levelText)
  }

  /** An update of `getUpdates`, with its `update_id` if it has one. */
  datatype Update = Update(updateId: Option<int>, chatId: Option<string>, text: Option<string>)

  /** The polling state of `TelegramNotifier`. */
  class TelegramPoller {
    /** `_err_count`: consecutive failed polls, at most eight. */
    var errCount: nat
    /** `_last_update_id`. */
    var lastUpdateId: Option<int>

    ghost predicate Valid()
      reads this
    {
      errCount <= MaxErrors
    }

    constructor()
      ensures Valid() && errCount == 0 && lastUpdateId == None
    {
      errCount := 0;
      lastUpdateId := None;
    }

    /** The `offset` parameter of the next poll: one past the last update seen. */
    function Offset(): (r: Option<int>)
      reads this
      ensures r.Some? <==> lastUpdateId.Some?
      ensures r.Some? ==> r.value == lastUpdateId.value + 1
    {
      if lastUpdateId.Some? then Some(lastUpdateId.value + 1) else None
    }

    /** The pause of the polling loop after this poll. */
    function Delay(): (d: real)
      reads this
      ensures 0.8 <= d <= 10.0
    {
      PollDelay(errCount)
    }

    /**
     * `get_updates`, with whether a bot token is configured and the reply
     * (None when the request or its decoding raised): a reply resets the
     * error count and moves the offset to the last update's id; a failure
     * counts one more error, at most eight.
     */
    method GetUpdates(hasToken: bool, reply: Option<seq<Update>>) returns (updates: seq<Update>)
      requires Valid()
      modifies this
      ensures Valid()
      ensures !hasToken ==> updates == [] && errCount == old(errCount) && lastUpdateId == old(lastUpdateId)
      ensures hasToken && reply.None? ==> updates == [] && lastUpdateId == old(lastUpdateId)
      ensures hasToken && reply.None? ==>
        errCount == if old(errCount) + 1 < MaxErrors then old(errCount) + 1 else MaxErrors
      ensures hasToken && reply.Some? ==> updates == reply.value && errCount == 0
      ensures hasToken && reply.Some? ==> lastUpdateId == NextUpdateId(updates, old(lastUpdateId))
    {
      updates := [];
      if !hasToken {
        return;
      }
      match reply
      case None =>
        errCount := if errCount + 1 < MaxErrors then errCount + 1 else MaxErrors;
      case Some(batch) =>
        updates := batch;
        if updates != [] {
          var last := updates[|updates| - 1];
          lastUpdateId := if last.updateId.Some? then last.updateId else lastUpdateId;
        }
        errCount := 0;
    }
  }

  /**
   * `updates[-1].get('update_id', last)`: the last update's id when there is
   * an update that carries one, and otherwise the id seen before.
   */
  function NextUpdateId(updates: seq<Update>, last: Option<int>): (r: Option<int>)
    ensures updates == [] ==> r == last
    ensures updates != [] && updates[|updates| - 1].updateId.Some? ==> r == updates[|updates| - 1].updateId
    ensures updates != [] && updates[|updates| - 1].updateId.None? ==> r == last
  {
    if updates != [] && updates[|updates| - 1].updateId.Some? then updates[|updates| - 1].updateId else last
  }
}
