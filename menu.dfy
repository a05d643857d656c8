/**
 * The service menu of app/src/screens/Menu.jsx: the client's own limit
 * table, the "remaining this week" figure, the displayed limit and the five
 * topic buttons.
 */
module Menu {
  import opened Limits
  import Objects
  import Prompts
  import Entitlement

  /** The menu's `LIMITS` object. */
  const Table: map<string, Limit> :=
    map["trial" := Bounded(5), "Starter" := Bounded(5), "Pro" := Bounded(10), "Elite" := Unbounded]

  /** `LIMITS[status.package] ?? 0` with the menu's table. */
  function MenuLimit(package: string): (v: TableLimit)
    ensures v.InheritedValue? <==> package in Objects.PrototypeMembers
    ensures v == Allowance(Unbounded) <==> package == "Elite"
    ensures package == "trial" || package == "Starter" ==> v == Allowance(Bounded(5))
    ensures package == "Pro" ==> v == Allowance(Bounded(10))
    ensures package !in Entitlement.KnownPackages && package !in Objects.PrototypeMembers ==> v == Allowance(Bounded(0))
  {
    ClientLimit(Table, package)
  }

  /**
   * The "Remaining this week" figure: "unlimited", a count, or NaN, which is
   * what `Math.max(limit - used, 0)` gives when the lookup found an inherited
   * member instead of a number.
   */
  datatype Remaining = Unlimited | Left(n: nat) | NotANumber

  function RemainingThisWeek(package: string, used: nat): (r: Remaining)
    ensures r.Unlimited? <==> package == "Elite"
    ensures r.NotANumber? <==> package in Objects.PrototypeMembers
    ensures r.Left? ==> MenuLimit(package).Allowance? && MenuLimit(package).limit.Bounded?
    ensures r.Left? ==> r.n <= MenuLimit(package).limit.n
    ensures r.Left? && used <= MenuLimit(package).limit.n ==> used + r.n == MenuLimit(package).limit.n
    ensures r.Left? && used >= MenuLimit(package).limit.n ==> r.n == 0
  {
    match MenuLimit(package)
    case InheritedValue(_) => NotANumber
    case Allowance(Unbounded) => Unlimited
    case Allowance(Bounded(limit)) => Left(if limit - used > 0 then limit - used else 0)
  }

  /**
   * What follows "Requests used: {used} /": "∞", the number, nothing (React
   * renders no text for a function, which every inherited member but one is),
   * or a failed render (`__proto__` yields Object.prototype, an object, and
   * React refuses an object as a child).
   */
  datatype LimitLabel = InfinitySign | Number(n: nat) | Nothing | RenderFails

  function DisplayedLimit(package: string): (d: LimitLabel)
    ensures d.InfinitySign? <==> package == "Elite"
    ensures d.Number? ==> MenuLimit(package) == Allowance(Bounded(d.n))
    ensures d.Number? <==> RemainingThisWeek(package, 0).Left?
    ensures d.Nothing? <==> package in Objects.PrototypeMembers - {"__proto__"}
    ensures d.RenderFails? <==> package == "__proto__"
  {
    match MenuLimit(package)
    case Allowance(Unbounded) => InfinitySign
    case Allowance(Bounded(limit)) => Number(limit)
    case InheritedValue(name) => if name == "__proto__" then RenderFails else Nothing
  }

  /**
   * The menu's table is the server's table at its default limits, except on
   * inherited member names, which the server's `===` chain sends to 0.
   */
  lemma MenuAgreesWithServerDefaults(package: string)
    ensures package !in Objects.PrototypeMembers ==>
              MenuLimit(package) == Allowance(Entitlement.WeeklyLimit(package, Entitlement.DefaultConfig))
    ensures package in Objects.PrototypeMembers ==>
              MenuLimit(package).InheritedValue? && Entitlement.WeeklyLimit(package, Entitlement.DefaultConfig) == Bounded(0)
  {
  }

  /**
   * Within a live window the figure tells how the next requests in a row
   * fare: "unlimited" means all are admitted, a count means exactly that many
   * are, and NaN stands where the server admits none.
   */
  lemma RemainingIsWhatServerAdmits(a: Entitlement.Account, now: int, k: nat)
    requires !Entitlement.WindowStale(a, now)
    ensures var r, run := RemainingThisWeek(a.package, a.requestsWeek), Entitlement.Burst(a, now, Entitlement.DefaultConfig, k);
            && (r.Unlimited? ==> forall i :: 0 <= i < k ==> run.outcomes[i])
            && (r.Left? ==> forall i :: 0 <= i < k ==> run.outcomes[i] == (i < r.n))
            && (r.NotANumber? ==> forall i :: 0 <= i < k ==> !run.outcomes[i])
  {
    MenuAgreesWithServerDefaults(a.package);
    if a.package == "Elite" {
      Entitlement.EliteBurstAllAdmitted(a, now, Entitlement.DefaultConfig, k);
    } else {
      Entitlement.BurstSaturates(a, now, Entitlement.DefaultConfig, k);
    }
  }

  /** The topics of the five menu buttons, in order. */
  const MenuTopics: seq<string> := ["trade_setup", "account_health", "psychology", "funded_account", "margin_call"]

  /** Every menu button names a topic the server has a builder for, and every builder has a button. */
  lemma MenuTopicsHaveBuilders()
    ensures forall i :: 0 <= i < |MenuTopics| ==> Prompts.TopicOf(MenuTopics[i]).Some?
    ensures forall key :: key in Prompts.TopicKeys ==> key in MenuTopics
  {
  }
}
