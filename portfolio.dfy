/**
 * The portfolio page: the bot-card selection, the positions table filter, the allocation
 * chart data and the order in which the page decides what to render.
 */
module Portfolio {
  import opened Prelude
  import opened ApiTypes
  import opened UseApi
  import Seqs

  /** `selectedBot`: every bot, or one of them. */
  datatype Selection = All | Only(bot: Bot)

  /** A bot card's click: the selected bot goes back to all, any other card selects its bot. */
  function Toggle(s: Selection, b: Bot): (r: Selection)
    ensures r == All <==> s == Only(b)
  {
    if s == Only(b) then All else Only(b)
  }

  /** Two clicks on the same card restore the selection iff it was `all` or that card's bot. */
  lemma ToggleTwice(s: Selection, b: Bot)
    ensures Toggle(Toggle(s, b), b) == s <==> s == All || s == Only(b)
  {
  }

  /** `positions`: every position for `all`, else those of the selected bot, in order. */
  function VisiblePositions(all: seq<Position>, s: Selection): (r: seq<Position>)
    ensures s == All ==> r == all
    ensures Seqs.IsSubsequence(r, all)
    ensures s.Only? ==> forall i :: 0 <= i < |r| ==> r[i].bot == s.bot
    ensures s.Only? ==> forall i :: 0 <= i < |all| && all[i].bot == s.bot ==> all[i] in r
    ensures s.Only? ==> forall x :: multiset(r)[x] == if x.bot == s.bot then multiset(all)[x] else 0
  {
    if s == All then
      Seqs.FilterKeepsAll(all, (p: Position) => true);
      all
    else
      Seqs.FilterCounts(all, (p: Position) => p.bot == s.bot);
      Seqs.Filter(all, (p: Position) => p.bot == s.bot)
  }

  /** The four demo positions; `daysAgo(d)` is the ISO timestamp `d` days before now. */
  function MockPositions(daysAgo: int -> string): (r: seq<Position>)
    ensures |r| == 4
  {
    [ Position("pos-1", Kalshi, "market-123", "Will Bitcoin exceed $100k by Dec 2025?", 0.45, 0.68,
               100.0, Yes, 68.0, 23.0, 51.1, daysAgo(5), daysAgo(0)),
      Position("pos-2", Kalshi, "market-124", "Will Fed cut rates in March?", 0.62, 0.55,
               150.0, No, 82.5, -10.5, -11.3, daysAgo(3), daysAgo(0)),
      Position("pos-3", Crypto, "BTC", "Bitcoin", 62000.0, 66500.0,
               0.002, Buy, 133.0, 9.0, 7.3, daysAgo(10), daysAgo(0)),
      Position("pos-4", Crypto, "SOL", "Solana", 210.0, 198.0,
               1.0, Buy, 198.0, -12.0, -5.7, daysAgo(7), daysAgo(0)) ]
  }

  /** Selecting the grid bot on the demo data leaves the table empty. */
  lemma GridHasNoDemoPositions(daysAgo: int -> string)
    ensures VisiblePositions(MockPositions(daysAgo), Only(Grid)) == []
  {
    var all := MockPositions(daysAgo);
    assert forall i :: 0 <= i < |all| ==> all[i].bot != Grid;
  }

  /** One slice of the allocation chart. */
  datatype Slice = Slice(name: string, value: real, color: string)

  /** The three candidate slices, each valued cash plus positions. */
  function Allocation(p: PortfolioSummary): seq<Slice>
  {
    [ Slice("Kalshi", p.kalshiBalance + p.kalshiPositionsValue, "#3b82f6"),
      Slice("Crypto", p.cryptoBalance + p.cryptoPositionsValue, "#f59e0b"),
      Slice("Grid", p.gridBalance + p.gridPositionsValue, "#8b5cf6") ]
  }

  /** `pieData`: empty without a snapshot, else the positive slices in Kalshi, Crypto, Grid order. */
  function PieData(portfolio: Option<PortfolioSummary>): (r: seq<Slice>)
    ensures portfolio.None? ==> r == []
    ensures portfolio.Some? ==> Seqs.IsSubsequence(r, Allocation(portfolio.value))
    ensures forall i :: 0 <= i < |r| ==> r[i].value > 0.0
    ensures portfolio.Some? ==> forall i :: 0 <= i < 3 && Allocation(portfolio.value)[i].value > 0.0 ==>
                                  Allocation(portfolio.value)[i] in r
  {
    if portfolio.None? then []
    else Seqs.Filter(Allocation(portfolio.value), (s: Slice) => s.value > 0.0)
  }

  /** With money in all three bots the chart has exactly the three slices, in order. */
  lemma PieDataAllPositive(p: PortfolioSummary)
    requires p.kalshiBalance + p.kalshiPositionsValue > 0.0
    requires p.cryptoBalance + p.cryptoPositionsValue > 0.0
    requires p.gridBalance + p.gridPositionsValue > 0.0
    ensures PieData(Some(p)) == Allocation(p)
  {
    Seqs.FilterKeepsAll(Allocation(p), (s: Slice) => s.value > 0.0);
  }

  /** What the page renders. */
  datatype View = LoadingView | ErrorView(message: string) | NothingView | ContentView(summary: PortfolioSummary)

  /** The render order: loading, then error, then nothing without a snapshot, then content. */
  function Render(isLoading: bool, error: Option<ApiError>, portfolio: Option<PortfolioSummary>): (v: View)
    ensures isLoading <==> v == LoadingView
    ensures v.ErrorView? <==> !isLoading && error.Some?
    ensures v.ErrorView? ==> v.message == error.value.message
    ensures v.ContentView? <==> !isLoading && error.None? && portfolio.Some?
    ensures v.ContentView? ==> v.summary == portfolio.value
  {
    if isLoading then LoadingView
    else if error.Some? then ErrorView(error.value.message)
    else if portfolio.None? then NothingView
    else ContentView(portfolio.value)
  }

  /**
   * A failed poll keeps the old snapshot but the page shows the error instead of it: data
   * that was on screen disappears until the next successful fetch.
   */
  lemma ErrorHidesStaleSnapshot(p: PortfolioSummary)
    ensures Render(false, Some(PollerError(PortfolioFailure)), Some(p)) == ErrorView(PortfolioFailure)
  {
  }

  /** `positiveROI`. */
  predicate PositiveRoi(p: PortfolioSummary)
  {
    p.roiPercent >= 0.0
  }

  /** The prefix drawn before the total P&L and the ROI. */
  function RoiPrefix(p: PortfolioSummary): (prefix: string)
    ensures prefix == "+" <==> PositiveRoi(p)
    ensures prefix == "" <==> !PositiveRoi(p)
  {
    if PositiveRoi(p) then "+" else ""
  }

  /** Each side is green exactly when it is yes, buy or long, and its opposite is red. */
  lemma GreenSides(s: Side)
    ensures GreenSide(s) <==> s == Yes || s == Buy || s == Long
    ensures GreenSide(Yes) && !GreenSide(No) && GreenSide(Buy) && !GreenSide(Sell)
    ensures GreenSide(Long) && !GreenSide(Short)
  {
  }

  /** The Portfolio page: its card selection over the 30 s portfolio poller. */
  class PortfolioPage {
    const poller: PortfolioPoller
    var selected: Selection

    constructor (baseUrl: string)
      ensures fresh(poller) && poller.pollInterval == 30000 && poller.api.baseUrl == baseUrl
      ensures selected == All
    {
      poller := new PortfolioPoller(baseUrl, 30000);
      selected := All;
    }

    method ClickCard(b: Bot)
      modifies this
      ensures selected == Toggle(old(selected), b)
    {
      selected := Toggle(selected, b);
    }
  }
}
