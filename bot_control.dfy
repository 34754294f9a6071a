/**
 * The bot control panel: per-bot status and buttons, the confirmation dialog each action
 * opens, and the backend call the confirmed dialog makes.
 */
module BotControl {
  import opened Prelude
  import opened Text
  import opened ApiTypes
  import opened UseApi

  /** The confirmation dialog's state. */
  datatype Dialog = Dialog(title: string, message: string, danger: bool, action: string,
                           botName: Option<string>)

  /** The banner shown after a confirmed action. */
  datatype OperationResult = OperationResult(success: bool, message: string)

  /** `${x}` for an optional string: an absent value prints as `undefined`. */
  function Interpolate(x: Option<string>): string
  {
    if x.Some? then x.value else "undefined"
  }

  /** `${botName?.toUpperCase()}`. */
  function InterpolateUpper(x: Option<string>): string
  {
    if x.Some? then ToUpper(x.value) else "undefined"
  }

  /** The actions that open a dialog. */
  predicate KnownAction(action: string)
  {
    action in {"pause", "resume", "restart", "git-pull", "scan"}
  }

  /** `handleBotAction(action, botName)`: the dialog to open, or None to leave it as it is. */
  function DialogFor(action: string, botName: Option<string>): (d: Option<Dialog>)
    ensures d.Some? <==> KnownAction(action)
    ensures d.Some? ==> d.value.action == action
    ensures d.Some? ==> (d.value.danger <==> action == "restart" || action == "git-pull")
    ensures d.Some? ==> d.value.botName == if action == "git-pull" then None else botName
  {
    if action == "pause" then
      Some(Dialog("Pause " + InterpolateUpper(botName) + "?",
                  "The " + Interpolate(botName) + " bot will stop trading. You can resume it at any time.",
                  false, "pause", botName))
    else if action == "resume" then
      Some(Dialog("Resume " + InterpolateUpper(botName) + "?",
                  "The " + Interpolate(botName) + " bot will resume trading immediately.",
                  false, "resume", botName))
    else if action == "restart" then
      Some(Dialog("Restart " + InterpolateUpper(botName) + "?",
                  "The " + Interpolate(botName) + " bot will be restarted. This may take a few seconds.",
                  true, "restart", botName))
    else if action == "git-pull" then
      Some(Dialog("Deploy Latest Code",
                  "This will pull the latest changes from GitHub and restart all bots.",
                  true, "git-pull", None))
    else if action == "scan" then
      Some(Dialog("Trigger Manual Scan",
                  "The " + Interpolate(botName) + " bot will perform an immediate scan cycle.",
                  false, "scan", botName))
    else None
  }

  /** The confirm button's label. */
  function ConfirmText(d: Dialog): (caption: string)
    ensures caption == "Yes, proceed" <==> d.danger
  {
    if d.danger then "Yes, proceed" else "Confirm"
  }

  /** The bot actions that go to `/api/bots/{name}/{action}`. */
  predicate BotAction(action: string)
  {
    action in {"pause", "resume", "restart", "scan"}
  }

  /** The endpoint `executeAction` posts to for a dialog, if any. */
  function EndpointFor(d: Dialog): (e: Option<string>)
    ensures e.Some? <==> d.action == "git-pull" || (BotAction(d.action) && Truthy(d.botName))
    ensures d.action == "git-pull" ==> e == Some("/api/deploy/git-pull")
    ensures e.Some? && d.action != "git-pull" ==>
              e.value == "/api/bots/" + d.botName.value + "/" + d.action
  {
    if BotAction(d.action) && Truthy(d.botName) then
      Some("/api/bots/" + d.botName.value + "/" + d.action)
    else if d.action == "git-pull" then Some("/api/deploy/git-pull")
    else None
  }

  /**
   * A button's dialog, once confirmed, posts to the endpoint of its own action and bot;
   * git-pull needs no bot, and a bot action opened without a name posts nothing.
   */
  lemma DialogEndpoint(action: string, botName: Option<string>)
    requires KnownAction(action)
    ensures var e := EndpointFor(DialogFor(action, botName).value);
            (action == "git-pull" ==> e == Some("/api/deploy/git-pull")) &&
            (action != "git-pull" && Truthy(botName) ==>
               e == Some("/api/bots/" + botName.value + "/" + action)) &&
            (action != "git-pull" && !Truthy(botName) ==> e.None?)
  {
  }

  /** The name in a bot endpoint is the dialog's bot, read back between the fixed parts. */
  lemma EndpointCarriesBot(d: Dialog)
    requires BotAction(d.action) && Truthy(d.botName)
    ensures var e := EndpointFor(d).value;
            var n := |d.botName.value|;
            e[..10] == "/api/bots/" && e[10..10 + n] == d.botName.value &&
            e[10 + n..] == "/" + d.action
  {
  }

  const CompletedSuffix := " completed successfully"

  /** `${dialog.action.replace('-', ' ')} completed successfully`. */
  function SuccessMessage(action: string): (m: string)
    // the action name with its first hyphen turned into a space, then the fixed suffix
    ensures |m| == |action| + |CompletedSuffix| && m[|action|..] == CompletedSuffix
    ensures forall i :: 0 <= i < |action| ==> m[i] == if i == IndexOf(action, '-') then ' ' else action[i]
  {
    ReplaceFirst(action, '-', ' ') + CompletedSuffix
  }

  /** Deploy's message: its one hyphen becomes a space. */
  lemma GitPullMessage()
    ensures SuccessMessage("git-pull") == "git pull" + CompletedSuffix
  {
    var s := "git-pull";
    assert s[0] != '-' && s[1] != '-' && s[2] != '-' && s[3] == '-';
    assert '-' !in s[..3];
    assert IndexOf(s, '-') == 3;
    assert ReplaceFirst(s, '-', ' ') == "git pull";
  }

  /** An action without a hyphen is reported under its own name. */
  lemma PlainActionMessage(action: string)
    requires '-' !in action
    ensures SuccessMessage(action) == action + CompletedSuffix
  {
  }

  /** The status label of a bot card. */
  function StatusLabel(b: BotStatus): (caption: string)
    ensures caption == "RUNNING" <==> b.isRunning && !b.isPaused
    ensures caption == "PAUSED" <==> b.isRunning && b.isPaused
    ensures caption == "STOPPED" <==> !b.isRunning
  {
    if b.isRunning then (if b.isPaused then "PAUSED" else "RUNNING") else "STOPPED"
  }

  /** The Pause button: shown exactly on a card labelled RUNNING. */
  function ShowsPause(b: BotStatus): (shown: bool)
    ensures shown <==> StatusLabel(b) == "RUNNING"
  {
    b.isRunning && !b.isPaused
  }

  /** The Resume button: shown exactly on a card labelled PAUSED or STOPPED. */
  function ShowsResume(b: BotStatus): (shown: bool)
    ensures shown <==> StatusLabel(b) == "PAUSED" || StatusLabel(b) == "STOPPED"
  {
    b.isPaused || !b.isRunning
  }

  /** Exactly one of Pause and Resume is on every card. */
  lemma PauseXorResume(b: BotStatus)
    ensures ShowsPause(b) != ShowsResume(b)
  {
  }

  /** Pause, Resume, Restart and Git Pull are disabled exactly while a call is in flight. */
  predicate ActionDisabled(isApiLoading: bool)
  {
    isApiLoading
  }

  predicate ScanDisabled(isApiLoading: bool, b: BotStatus)
  {
    isApiLoading || !b.isRunning
  }

  /** A call in flight disables every action; a stopped bot cannot be scanned. */
  lemma LoadingDisablesAll(isApiLoading: bool, b: BotStatus)
    ensures isApiLoading ==> ActionDisabled(isApiLoading) && ScanDisabled(isApiLoading, b)
    ensures !b.isRunning ==> ScanDisabled(isApiLoading, b)
    ensures ScanDisabled(isApiLoading, b) ==> ActionDisabled(isApiLoading) || !b.isRunning
  {
  }

  /** The three demo bots; `minutesFrom(m)` is the ISO timestamp `m` minutes after now. */
  function MockBots(minutesFrom: int -> string): (r: seq<BotStatus>)
    ensures |r| == 3
    ensures forall i :: 0 <= i < |r| ==> r[i].isRunning && !r[i].isPaused
  {
    [ BotStatus(Kalshi, true, false, minutesFrom(-5), 1250, 2, 8, None, minutesFrom(5), 105.32, 3),
      BotStatus(Crypto, true, false, minutesFrom(-2), 890, 0, 1, None, minutesFrom(8), 324.15, 2),
      BotStatus(Grid, true, false, minutesFrom(-1), 650, 1, 5, None, minutesFrom(4), 175.50, 1) ]
  }

  /** `displayBots`: the fetched list, or the demo bots when it is empty. */
  function DisplayBots(fetched: seq<BotStatus>, minutesFrom: int -> string): (r: seq<BotStatus>)
    ensures |fetched| > 0 ==> r == fetched
    ensures |fetched| == 0 ==> r == MockBots(minutesFrom)
  {
    if |fetched| > 0 then fetched else MockBots(minutesFrom)
  }

  /** The "Failed to load bot status" panel needs an empty display, which never happens. */
  lemma ErrorPanelUnreachable(fetched: seq<BotStatus>, minutesFrom: int -> string)
    ensures |DisplayBots(fetched, minutesFrom)| > 0
  {
  }

  /** The Bot Control page: the bots poller, the call helper, the dialog and the result banner. */
  class BotControlPage {
    const bots: BotsPoller
    const caller: ApiCaller
    var dialog: Option<Dialog>
    var result: Option<OperationResult>

    constructor (baseUrl: string)
      ensures fresh(bots) && fresh(caller) && fresh(bots.api) && fresh(bots.timers) && fresh(caller.api)
      ensures bots.Valid() && bots.api.baseUrl == baseUrl && caller.api.baseUrl == baseUrl
      ensures bots.api.sent == [] && caller.api.sent == []
      ensures dialog == None && result == None
    {
      bots := new BotsPoller(baseUrl);
      caller := new ApiCaller(baseUrl);
      dialog := None;
      result := None;
    }

    /** A button press: a known action opens its dialog, anything else changes nothing. */
    method HandleBotAction(action: string, botName: Option<string>)
      modifies this
      ensures dialog == if KnownAction(action) then DialogFor(action, botName) else old(dialog)
      ensures result == old(result)
    {
      var d := DialogFor(action, botName);
      if d.Some? {
        dialog := d;
      }
    }

    /**
     * The confirm button: posts to the dialog's endpoint when it has one, then records
     * success. `request` reports HTTP failures through its error slot instead of throwing,
     * so the failure banner is never set.
     */
    method ExecuteAction<T>(send: Outgoing -> Reply<T>)
      modifies this, caller, caller.api
      ensures dialog == old(dialog)
      ensures old(dialog).None? ==> result == old(result) && caller.api.sent == old(caller.api.sent)
      ensures old(dialog).Some? ==>
                var e := EndpointFor(old(dialog).value);
                result == Some(OperationResult(true, SuccessMessage(old(dialog).value.action))) &&
                caller.api.sent == old(caller.api.sent) +
                  (if e.Some? then [OutgoingFor(caller.api.baseUrl, e.value, [], Some("POST"), None)] else [])
      ensures old(dialog).Some? && EndpointFor(old(dialog).value).Some? ==> !caller.isLoading
      ensures (old(dialog).None? || EndpointFor(old(dialog).value).None?) ==>
                caller.isLoading == old(caller.isLoading)
    {
      if dialog.None? {
        return;
      }
      var e := EndpointFor(dialog.value);
      if e.Some? {
        var _ := caller.Call(e.value, "POST", None, send);
      }
      result := Some(OperationResult(true, SuccessMessage(dialog.value.action)));
    }

    /** The 2 s timer after a confirmed action: close the dialog and banner, refresh the bots. */
    method AfterResultDelay(send: Outgoing -> Reply<seq<BotStatus>>)
      requires bots.Valid()
      modifies this, bots, bots.api
      ensures dialog == None && result == None
      ensures bots.Valid() && bots.pollTimer == old(bots.pollTimer)
      ensures bots.Fetched(send, old(bots.api.sent), old(bots.bots))
    {
      dialog := None;
      result := None;
      bots.Refresh(send);
    }

    /** Cancel: close the dialog and clear the banner. */
    method Cancel()
      modifies this
      ensures dialog == None && result == None
    {
      dialog := None;
      result := None;
    }
  }
}
