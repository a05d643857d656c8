/**
 * The decisions of app/src/App.jsx: the client's limit table, when the
 * upgrade screen is forced, and which screen is shown.
 */
module App {
  import opened Wrappers
  import opened Limits
  import Objects
  import Entitlement

  type Status = Entitlement.Status

  /** App's `LIMITS` object, which lists only trial and Elite. */
  const Table: map<string, Limit> := map["trial" := Bounded(15), "Elite" := Unbounded]

  /** `LIMITS[status.package] ?? 0` with App's table. */
  function AppLimit(package: string): (v: TableLimit)
    ensures v.InheritedValue? <==> package in Objects.PrototypeMembers
    ensures v == Allowance(Unbounded) <==> package == "Elite"
    ensures package == "trial" ==> v == Allowance(Bounded(15))
    ensures package != "trial" && package != "Elite" && package !in Objects.PrototypeMembers ==> v == Allowance(Bounded(0))
  {
    ClientLimit(Table, package)
  }

  /**
   * `limit !== Infinity && status.requestsWeek >= limit`. An inherited member
   * converts to NaN, and no comparison with NaN holds.
   */
  predicate AtLimit(count: nat, v: TableLimit)
  {
    v.Allowance? && Reached(count, v.limit)
  }

  /**
   * The condition App's status effect evaluates, with App's table as it
   * stands: only Elite, an inherited member name and a live trial under 15
   * requests escape the upgrade screen.
   */
  function ShowUpgradeAsWritten(s: Status): (b: bool)
    ensures b <==> && s.package != "Elite" && s.package !in Objects.PrototypeMembers
                   && (s.package != "trial" || s.expired || s.requestsWeek >= 15)
  {
    (s.package == "trial" && s.expired) || AtLimit(s.requestsWeek, AppLimit(s.package))
  }

  /**
   * As written, every Starter or Pro subscriber is sent to the upgrade
   * screen, even one the server would admit.
   */
  lemma PaidSubscriberAlwaysSeesUpgrade(a: Entitlement.Account, now: int)
    requires a.package == "Starter" || a.package == "Pro"
    requires a.requestsWeek == 0 && !Entitlement.WindowStale(a, now)
    ensures ShowUpgradeAsWritten(Entitlement.StatusOf(a, now, Entitlement.DefaultConfig))
    ensures Entitlement.Consume(a, now, Entitlement.DefaultConfig).decision.allowed
  {
  }

  /** As written, a live trial at 5 requests sees the menu although the server refuses its next request. */
  lemma TrialLimitDisagreesWithServer(a: Entitlement.Account, now: int)
    requires a.package == "trial" && a.requestsWeek == 5
    requires !Entitlement.WindowStale(a, now) && now - a.trialStart < Entitlement.TrialMs(Entitlement.DefaultConfig)
    ensures !ShowUpgradeAsWritten(Entitlement.StatusOf(a, now, Entitlement.DefaultConfig))
    ensures !Entitlement.Consume(a, now, Entitlement.DefaultConfig).decision.allowed
  {
  }

  /** The upgrade condition with the server's own table at its default limits. */
  predicate ShowUpgrade(s: Status)
  {
    (s.package == "trial" && s.expired) || Reached(s.requestsWeek, Entitlement.WeeklyLimit(s.package, Entitlement.DefaultConfig))
  }

  /**
   * With the server's table, the upgrade screen is forced exactly when the
   * trial has expired or the server would refuse the next request in this window.
   */
  lemma ShowUpgradeMatchesServer(a: Entitlement.Account, now: int)
    requires !Entitlement.WindowStale(a, now)
    ensures var s := Entitlement.StatusOf(a, now, Entitlement.DefaultConfig);
            ShowUpgrade(s) <==> s.expired || !Entitlement.Consume(a, now, Entitlement.DefaultConfig).decision.allowed
  {
  }

  // ---- the showUpgrade flag ----

  /** What changes the flag: a newly loaded status, or the chat screen reporting a refusal. */
  datatype AppEvent = StatusLoaded(status: Status) | LimitExceeded

  /** The flag after one event: a status recomputes it from the status alone; a refusal sets it. */
  function NextShowUpgrade(flag: bool, e: AppEvent): (next: bool)
    ensures e.LimitExceeded? ==> next
    ensures e.StatusLoaded? ==> (next <==> ShowUpgradeAsWritten(e.status))
  {
    match e
    case StatusLoaded(s) => ShowUpgradeAsWritten(s)
    case LimitExceeded => true
  }

  /** The flag after a sequence of events: it depends only on the last one, and earlier ones, refusals included, are forgotten. */
  function ShowUpgradeAfter(flag: bool, events: seq<AppEvent>): (f: bool)
    ensures events == [] ==> f == flag
    ensures events != [] ==> f == NextShowUpgrade(false, events[|events| - 1])
    decreases |events|
  {
    if events == [] then flag else ShowUpgradeAfter(NextShowUpgrade(flag, events[0]), events[1..])
  }

  /** A status loaded after a refusal overrides it. */
  lemma StatusLoadOverridesRefusal(flag: bool, before: seq<AppEvent>, s: Status)
    ensures ShowUpgradeAfter(flag, before + [LimitExceeded, StatusLoaded(s)]) == ShowUpgradeAsWritten(s)
  {
  }

  // ---- which screen is shown ----

  datatype Screen =
    | WaitingForTelegram
    | ErrorScreen(message: string)
    | Loading
    | Upgrade
    | ChatScreen(topic: string)
    | StartTrialPrompt
    | MenuScreen

  /**
   * The render chain. An unset error or topic is the empty string; an unset
   * status is None.
   */
  function Render(waiting: bool, error: string, status: Option<Status>, showUpgrade: bool, topic: string): (sc: Screen)
    ensures sc == WaitingForTelegram <==> waiting
    ensures sc.ErrorScreen? <==> !waiting && error != ""
    ensures sc == Loading <==> !waiting && error == "" && status.None?
    ensures sc == Upgrade <==> !waiting && error == "" && status.Some? && showUpgrade
    ensures sc.ChatScreen? <==> !waiting && error == "" && status.Some? && !showUpgrade && topic != ""
    ensures sc == StartTrialPrompt <==>
              && !waiting && error == "" && status.Some? && !showUpgrade && topic == ""
              && status.value.package == "trial" && !status.value.trialActive
    ensures sc == MenuScreen <==>
              && !waiting && error == "" && status.Some? && !showUpgrade && topic == ""
              && !(status.value.package == "trial" && !status.value.trialActive)
  {
    if waiting then WaitingForTelegram
    else if error != "" then ErrorScreen(error)
    else if status.None? then Loading
    else if showUpgrade then Upgrade
    else if topic != "" then ChatScreen(topic)
    else if status.value.package == "trial" && !status.value.trialActive then StartTrialPrompt
    else MenuScreen
  }

  /** Once a status has loaded, an expired trial lands on the upgrade screen whatever the topic or earlier events. */
  lemma ExpiredTrialSeesUpgrade(a: Entitlement.Account, now: int, flag: bool, before: seq<AppEvent>, topic: string)
    requires a.package == "trial" && now - a.trialStart >= Entitlement.TrialMs(Entitlement.DefaultConfig)
    ensures var s := Entitlement.StatusOf(a, now, Entitlement.DefaultConfig);
            Render(false, "", Some(s), ShowUpgradeAfter(flag, before + [StatusLoaded(s)]), topic) == Upgrade
  {
  }

  /**
   * Once the flag has been recomputed from a status the server produced, the
   * start-trial prompt cannot be reached: a trial that is not active is
   * expired, and either condition then forces the upgrade screen.
   */
  lemma StartTrialPromptUnreachable(a: Entitlement.Account, now: int, cfg: Entitlement.Config, topic: string)
    ensures var s := Entitlement.StatusOf(a, now, cfg);
            && Render(false, "", Some(s), ShowUpgrade(s), topic) != StartTrialPrompt
            && Render(false, "", Some(s), ShowUpgradeAsWritten(s), topic) != StartTrialPrompt
  {
  }
}
