/**
 * The log viewer: the client-side filter over the displayed entries, the demo fallback,
 * the colour tables, the module column, and the auto-refresh effect that drives the
 * log poller.
 */
module Logs {
  import opened Prelude
  import opened Text
  import opened ApiTypes
  import opened UseApi
  import Seqs

  /**
   * The per-entry test of `filteredLogs`: an empty bot or level filter passes everything,
   * and the search matches the message case-insensitively.
   */
  function Keep(log: LogEntry, botFilter: string, levelFilter: string, searchText: string): (keep: bool)
    // with no filter and no search everything passes
    ensures botFilter == "" && levelFilter == "" && searchText == "" ==> keep
    // a set filter passes only its own source or level; a search only matching messages
    ensures keep && botFilter != "" ==> SourceName(log.source) == botFilter
    ensures keep && levelFilter != "" ==> LevelName(log.level) == levelFilter
    ensures keep && searchText != "" ==> Contains(ToLower(log.message), ToLower(searchText))
  {
    (botFilter == "" || SourceName(log.source) == botFilter) &&
    (levelFilter == "" || LevelName(log.level) == levelFilter) &&
    (searchText == "" || Contains(ToLower(log.message), ToLower(searchText)))
  }

  /** `filteredLogs`: the displayed entries that pass, in their displayed order. */
  function FilteredLogs(display: seq<LogEntry>, botFilter: string, levelFilter: string,
                        searchText: string): (r: seq<LogEntry>)
    ensures Seqs.IsSubsequence(r, display)
    ensures |r| <= |display|
    ensures forall i :: 0 <= i < |r| ==> Keep(r[i], botFilter, levelFilter, searchText)
    ensures forall i :: 0 <= i < |display| && Keep(display[i], botFilter, levelFilter, searchText) ==>
                          display[i] in r
    ensures forall x :: multiset(r)[x] == if Keep(x, botFilter, levelFilter, searchText)
                                          then multiset(display)[x] else 0
  {
    Seqs.FilterCounts(display, (log: LogEntry) => Keep(log, botFilter, levelFilter, searchText));
    Seqs.Filter(display, (log: LogEntry) => Keep(log, botFilter, levelFilter, searchText))
  }

  /** With no filter and no search every displayed entry is shown. */
  lemma NoFiltersKeepAll(display: seq<LogEntry>)
    ensures FilteredLogs(display, "", "", "") == display
  {
    Seqs.FilterKeepsAll(display, (log: LogEntry) => Keep(log, "", "", ""));
  }

  /** The search is case-insensitive: lowercasing the search text changes nothing. */
  lemma SearchIgnoresCase(log: LogEntry, botFilter: string, levelFilter: string, searchText: string)
    ensures Keep(log, botFilter, levelFilter, searchText) <==>
            Keep(log, botFilter, levelFilter, ToLower(searchText))
  {
    LowerIsIdempotent(searchText);
    assert |ToLower(searchText)| == |searchText|;
  }

  /** An entry whose lowercased message holds the lowercased search at some offset is kept. */
  lemma SearchHitKept(log: LogEntry, searchText: string, k: nat)
    requires k + |searchText| <= |log.message|
    requires ToLower(log.message)[k..k + |searchText|] == ToLower(searchText)
    ensures Keep(log, "", "", searchText)
  {
    ContainsAt(ToLower(log.message), ToLower(searchText), k);
  }

  /** The eight demo entries, `minutesAgo(m)` being the ISO timestamp `m` minutes before now. */
  function MockLogs(minutesAgo: int -> string): (r: seq<LogEntry>)
    ensures |r| == 8
  {
    [ LogEntry(minutesAgo(30), FromBot(Kalshi), Info, "Cycle started - scanning 150 markets",
               Some("runner"), Some("run_strategy")),
      LogEntry(minutesAgo(28), FromBot(Kalshi), Info, "Found 8 edges with >8% EV",
               Some("scanner"), Some("find_edges")),
      LogEntry(minutesAgo(26), FromBot(Kalshi), Warning,
               "Edge liquidity below threshold: market-123 has only $250 volume",
               Some("validation"), Some("check_liquidity")),
      LogEntry(minutesAgo(24), FromBot(Kalshi), Info,
               "Placed trade: YES on Bitcoin prediction - risking $45 for $120 EV",
               Some("executor"), Some("place_trade")),
      LogEntry(minutesAgo(20), FromBot(Crypto), Info, "BTC price: $66,500 - momentum score: 7.2/10",
               Some("strategies"), Some("analyze_momentum")),
      LogEntry(minutesAgo(15), FromBot(Crypto), Debug, "RSI(14) = 65 - approaching overbought territory",
               Some("indicators"), Some("calculate_rsi")),
      LogEntry(minutesAgo(10), FromBot(Grid), Info, "Grid rebalance triggered - price moved 0.6% from center",
               Some("grid_trader"), Some("rebalance_grid")),
      LogEntry(minutesAgo(5), System, Info, "Daily loss limit check: $-12.34 of $50 allowed",
               Some("guardrails"), Some("check_daily_loss")) ]
  }

  /** `displayLogs`: the fetched entries, or the demo entries when none were fetched. */
  function DisplayLogs(fetched: seq<LogEntry>, minutesAgo: int -> string): (r: seq<LogEntry>)
    ensures |fetched| > 0 ==> r == fetched
    ensures |fetched| == 0 ==> r == MockLogs(minutesAgo)
    ensures |r| > 0
  {
    if |fetched| > 0 then fetched else MockLogs(minutesAgo)
  }

  /**
   * The "Failed to load logs" panel needs an error and an empty display at once; because
   * of the fallback the display is never empty, so the panel is never shown.
   */
  predicate ShowsErrorPanel(error: Option<ApiError>, fetched: seq<LogEntry>, minutesAgo: int -> string)
  {
    error.Some? && |DisplayLogs(fetched, minutesAgo)| == 0
  }

  lemma ErrorPanelUnreachable(error: Option<ApiError>, fetched: seq<LogEntry>, minutesAgo: int -> string)
    ensures !ShowsErrorPanel(error, fetched, minutesAgo)
  {
  }

  const DefaultBadge := "bg-slate-900/30 text-slate-400"

  /** `getLevelColor(level)`. */
  function LevelColor(level: string): (c: string)
    ensures level !in {"DEBUG", "INFO", "WARNING", "ERROR", "CRITICAL"} ==> c == DefaultBadge
  {
    match level
    case "DEBUG" => "bg-gray-900/30 text-gray-400"
    case "INFO" => "bg-blue-900/30 text-blue-400"
    case "WARNING" => "bg-yellow-900/30 text-yellow-400"
    case "ERROR" => "bg-red-900/30 text-red-400"
    case "CRITICAL" => "bg-red-900/50 text-red-300"
    case _ => DefaultBadge
  }

  /** Each of the five levels has its own badge, and none of them is the default. */
  lemma LevelColorsDistinct(a: Level, b: Level)
    ensures LevelColor(LevelName(a)) != DefaultBadge
    ensures LevelColor(LevelName(a)) == LevelColor(LevelName(b)) <==> a == b
  {
  }

  /** `getBotColor(bot)`: `system` shares the default badge with unknown sources. */
  function BotColor(bot: string): (c: string)
    ensures bot !in {"kalshi", "crypto", "grid"} ==> c == DefaultBadge
  {
    match bot
    case "kalshi" => "bg-blue-900/30 text-blue-400"
    case "crypto" => "bg-amber-900/30 text-amber-400"
    case "grid" => "bg-purple-900/30 text-purple-400"
    case "system" => DefaultBadge
    case _ => DefaultBadge
  }

  /** The three bots have distinct badges, each different from the system/default one. */
  lemma BotColorsDistinct(a: Bot, b: Bot)
    ensures BotColor(BotName(a)) != BotColor(SourceName(System))
    ensures BotColor(BotName(a)) == BotColor(BotName(b)) <==> a == b
  {
  }

  /** The module column: `module:function` when both are set, else `module`, else `-`. */
  function ModuleCell(moduleName: Option<string>, functionName: Option<string>): (cell: string)
    ensures cell == "-" <==> !Truthy(moduleName) || (moduleName.value == "-" && !Truthy(functionName))
    ensures Truthy(moduleName) ==> StartsWith(cell, moduleName.value)
    ensures Truthy(moduleName) && !Truthy(functionName) ==> cell == moduleName.value
  {
    if Truthy(moduleName) && Truthy(functionName) then moduleName.value + ":" + functionName.value
    else if Truthy(moduleName) then moduleName.value
    else "-"
  }

  /** A module name without `:` is recovered from the cell by splitting at the first `:`. */
  lemma ModuleCellSplits(moduleName: Option<string>, functionName: Option<string>)
    requires Truthy(moduleName) && Truthy(functionName) && ':' !in moduleName.value
    ensures var cell := ModuleCell(moduleName, functionName);
            var k := IndexOf(cell, ':');
            k == |moduleName.value| && cell[..k] == moduleName.value && cell[k + 1..] == functionName.value
  {
    var m := moduleName.value;
    var cell := ModuleCell(moduleName, functionName);
    assert cell[..|m|] == m;
    assert cell[|m|] == ':';
  }

  /** The filters the auto-refresh effect starts polling with: empty bot and level are omitted. */
  function PollFilters(botFilter: string, levelFilter: string, searchText: string): (f: LogFilters)
    ensures f.bot == if botFilter == "" then None else Some(botFilter)
    ensures f.level == if levelFilter == "" then None else Some(levelFilter)
    ensures f.search == Some(searchText)
  {
    LogFilters(OrUndefined(botFilter), OrUndefined(levelFilter), Some(searchText))
  }

  /** The Logs page: its filter state and the log poller it drives. */
  class LogsPage {
    const poller: LogsPoller
    var botFilter: string
    var levelFilter: string
    var searchText: string
    var isAutoRefresh: bool
    var mounted: bool

    /**
     * While mounted with auto-refresh on, exactly one interval is live and it polls with the
     * current filters; otherwise no interval is live.
     */
    ghost predicate Valid()
      reads this, poller, poller.timers
    {
      poller.Valid() &&
      if mounted && isAutoRefresh then
        poller.pollTimer.Some? &&
        poller.timers.live == map[poller.pollTimer.value :=
                                    Interval(LogsPollInterval, PollFilters(botFilter, levelFilter, searchText))]
      else
        poller.timers.live == map[]
    }

    constructor (baseUrl: string)
      ensures Valid() && fresh(poller) && fresh(poller.api) && fresh(poller.timers)
      ensures poller.api.baseUrl == baseUrl && poller.api.sent == []
      ensures botFilter == "" && levelFilter == "" && searchText == "" && isAutoRefresh && !mounted
    {
      poller := new LogsPoller(baseUrl);
      botFilter, levelFilter, searchText := "", "", "";
      isAutoRefresh := true;
      mounted := false;
    }

    /**
     * The poller after one fetch with the filters now on screen, from the transport log
     * `priorSent` and the list `prior`.
     */
    ghost predicate Polled(send: Outgoing -> Reply<ListResponse<LogEntry>>, priorSent: seq<Outgoing>,
                           prior: Data<seq<LogEntry>>)
      reads this, poller, poller.api
    {
      var f := PollFilters(botFilter, levelFilter, searchText);
      poller.Fetched(f.bot, f.level, f.search, DefaultLogLimit, send, priorSent, prior)
    }

    /** The poller as it was: nothing sent, nothing taken in. */
    ghost predicate Untouched(priorSent: seq<Outgoing>, prior: Data<seq<LogEntry>>,
                              priorError: Option<ApiError>, priorLoading: bool)
      reads poller, poller.api
    {
      poller.api.sent == priorSent && poller.logs == prior && poller.error == priorError
      && poller.isLoading == priorLoading
    }

    /** The effect body: start polling with the current filters, or stop. */
    method RunEffect(send: Outgoing -> Reply<ListResponse<LogEntry>>)
      requires poller.Valid() && poller.timers.live == map[] && mounted
      modifies poller, poller.api, poller.timers
      ensures Valid()
      ensures isAutoRefresh ==> Polled(send, old(poller.api.sent), old(poller.logs))
      ensures !isAutoRefresh ==>
                Untouched(old(poller.api.sent), old(poller.logs), old(poller.error), old(poller.isLoading))
    {
      if isAutoRefresh {
        var f := PollFilters(botFilter, levelFilter, searchText);
        poller.StartPolling(f.bot, f.level, f.search, send);
      } else {
        poller.StopPolling();
      }
    }

    method Mount(send: Outgoing -> Reply<ListResponse<LogEntry>>)
      requires Valid() && !mounted
      modifies this, poller, poller.api, poller.timers
      ensures Valid() && mounted
      ensures botFilter == old(botFilter) && levelFilter == old(levelFilter)
      ensures searchText == old(searchText) && isAutoRefresh == old(isAutoRefresh)
      ensures isAutoRefresh ==> Polled(send, old(poller.api.sent), old(poller.logs))
      ensures !isAutoRefresh ==>
                Untouched(old(poller.api.sent), old(poller.logs), old(poller.error), old(poller.isLoading))
    {
      mounted := true;
      RunEffect(send);
    }

    /**
     * A render with new filter or auto-refresh values: when any of them changed, the previous
     * effect is cleaned up (polling stopped) and the effect runs again.
     */
    method Update(bot: string, level: string, search: string, auto: bool,
                  send: Outgoing -> Reply<ListResponse<LogEntry>>)
      requires Valid() && mounted
      modifies this, poller, poller.api, poller.timers
      ensures Valid() && mounted
      ensures botFilter == bot && levelFilter == level && searchText == search && isAutoRefresh == auto
      ensures old(botFilter == bot && levelFilter == level && searchText == search && isAutoRefresh == auto)
              || !auto ==>
                Untouched(old(poller.api.sent), old(poller.logs), old(poller.error), old(poller.isLoading))
      ensures old(botFilter != bot || levelFilter != level || searchText != search || isAutoRefresh != auto)
              && auto ==>
                Polled(send, old(poller.api.sent), old(poller.logs))
    {
      if bot != botFilter || level != levelFilter || search != searchText || auto != isAutoRefresh {
        poller.StopPolling();
        botFilter, levelFilter, searchText, isAutoRefresh := bot, level, search, auto;
        RunEffect(send);
      }
    }

    /** Unmounting runs the page's cleanup and the hook's: polling stops. */
    method Unmount()
      requires Valid() && mounted
      modifies this, poller.timers
      ensures Valid() && !mounted && poller.timers.live == map[]
    {
      poller.StopPolling();
      poller.StopPolling();
      mounted := false;
    }

    /** "Refresh Now": one fetch with the current filters, leaving the timer as it is. */
    method RefreshNow(send: Outgoing -> Reply<ListResponse<LogEntry>>)
      requires Valid()
      modifies poller, poller.api
      ensures Valid() && Polled(send, old(poller.api.sent), old(poller.logs))
    {
      var f := PollFilters(botFilter, levelFilter, searchText);
      poller.Fetch(f.bot, f.level, f.search, DefaultLogLimit, send);
    }

    /** A timer fires while the page is shown: it polls with the filters now on screen. */
    method Tick(id: nat, send: Outgoing -> Reply<ListResponse<LogEntry>>)
      requires Valid()
      modifies poller, poller.api
      ensures Valid()
      ensures id in poller.timers.live ==> Polled(send, old(poller.api.sent), old(poller.logs))
      ensures id !in poller.timers.live ==>
                Untouched(old(poller.api.sent), old(poller.logs), old(poller.error), old(poller.isLoading))
    {
      poller.Tick(id, send);
    }
  }
}
