/**
 * The records the backend sends the dashboard (the TypeScript interfaces of the API).
 * Numbers are `real` (JavaScript numbers) or `int` where the field is a count;
 * optional fields are `Option`s; string unions are enumerations with their wire names.
 */
module ApiTypes {
  import opened Prelude

  /** The signed-in GitHub user. */
  datatype User = User(id: string, githubUsername: string, githubAvatarUrl: string,
                       createdAt: string, lastLogin: string)

  /** The three trading bots. */
  datatype Bot = Kalshi | Crypto | Grid

  function BotName(b: Bot): string
  {
    match b
    case Kalshi => "kalshi"
    case Crypto => "crypto"
    case Grid => "grid"
  }

  /** Where a log line comes from: one of the bots, or the supervising system. */
  datatype LogSource = FromBot(bot: Bot) | System

  function SourceName(s: LogSource): string
  {
    match s
    case FromBot(b) => BotName(b)
    case System => "system"
  }

  datatype Level = Debug | Info | Warning | Error | Critical

  function LevelName(l: Level): string
  {
    match l
    case Debug => "DEBUG"
    case Info => "INFO"
    case Warning => "WARNING"
    case Error => "ERROR"
    case Critical => "CRITICAL"
  }

  datatype Side = Yes | No | Buy | Sell | Long | Short

  function SideName(s: Side): string
  {
    match s
    case Yes => "yes"
    case No => "no"
    case Buy => "buy"
    case Sell => "sell"
    case Long => "long"
    case Short => "short"
  }

  /** `['yes', 'buy', 'long'].includes(side)`: the sides drawn with a green badge. */
  predicate GreenSide(s: Side)
  {
    SideName(s) in ["yes", "buy", "long"]
  }

  datatype TxStatus = Open | Closed | Settled | Pending

  function StatusName(s: TxStatus): string
  {
    match s
    case Open => "open"
    case Closed => "closed"
    case Settled => "settled"
    case Pending => "pending"
  }

  /** Portfolio summary with P&L and the per-bot cash and position values. */
  datatype PortfolioSummary = PortfolioSummary(
    totalCapital: real, currentValue: real, totalProfitLoss: real, roiPercent: real,
    dailyProfitLoss: real, dailyRoiPercent: real,
    kalshiBalance: real, kalshiPositionsValue: real,
    cryptoBalance: real, cryptoPositionsValue: real,
    gridBalance: real, gridPositionsValue: real,
    lastUpdated: string)

  /** A position held in one market. */
  datatype Position = Position(
    id: string, bot: Bot, marketId: string, marketName: string,
    entryPrice: real, currentPrice: real, quantity: real, side: Side,
    value: real, unrealizedPnl: real, unrealizedPnlPercent: real,
    entryTime: string, lastUpdated: string)

  /** A completed or open trade; exit price and P&L are absent until the trade closes. */
  datatype Transaction = Transaction(
    id: string, timestamp: string, bot: Bot, marketId: string, marketName: string,
    side: Side, quantity: real, entryPrice: real,
    exitPrice: Option<real>, profitLoss: Option<real>, profitLossPercent: Option<real>,
    status: TxStatus, notes: Option<string>)

  /** Operational state of one bot. */
  datatype BotStatus = BotStatus(
    name: Bot, isRunning: bool, isPaused: bool,
    lastCycleTime: string, lastCycleDurationMs: int, lastTradesCount: int,
    totalTradesToday: int, errorMessage: Option<string>, nextCycleTime: string,
    capital: real, positionsCount: int)

  /** One log line. */
  datatype LogEntry = LogEntry(
    timestamp: string, source: LogSource, level: Level, message: string,
    moduleName: Option<string>, functionName: Option<string>)

  /** The envelope of the list endpoints. */
  datatype ListResponse<T> = ListResponse(items: seq<T>, total: int, page: int,
                                          pageSize: int, hasMore: bool)
}
