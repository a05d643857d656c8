/**
 * The entitlement and weekly-quota rules of server/server.js, as functions
 * on account rows and on the whole table of rows. The class UserStore.Store
 * performs the same steps in place and is proved against these functions.
 *
 * Times are integer milliseconds; the weekly limits and the trial length,
 * which the server reads from its environment, are a Config.
 */
module Entitlement {
  import opened Wrappers
  import opened Limits
  import Objects
  import Prompts

  const HourMs: nat := 60 * 60 * 1000
  /** The length of a usage window: seven days. */
  const WeekMs: nat := 7 * 24 * HourMs

  /** A row of the `users` table (its `id` is the key it is stored under). */
  datatype Account = Account(package: string, requestsWeek: nat, trialStart: int, lastRequestReset: int)

  /** PRO_WEEKLY_LIMIT, STARTER_WEEKLY_LIMIT and TRIAL_DURATION_HOURS. */
  datatype Config = Config(proWeeklyLimit: nat, starterWeeklyLimit: nat, trialDurationHours: nat)

  /** The values the server uses when the environment sets none. */
  const DefaultConfig: Config := Config(10, 5, 24)

  /** The package names the limit table knows. */
  const KnownPackages: set<string> := {"trial", "Starter", "Pro", "Elite"}

  type Users = map<string, Account>

  // ---- getUser ----

  /** The row getUser inserts for an id it does not find. */
  function NewTrial(now: int): (a: Account)
    ensures a.package == "trial" && a.requestsWeek == 0
    ensures a.trialStart == now && a.lastRequestReset == now
  {
    Account("trial", 0, now, now)
  }

  /** The row getUser returns: the stored one, or a fresh trial row. */
  function Lookup(users: Users, id: string, now: int): (a: Account)
    ensures id in users ==> a == users[id]
    ensures id !in users ==> a == NewTrial(now)
  {
    if id in users then users[id] else NewTrial(now)
  }

  /** The table after getUser: the id is present, and nothing stored before changed. */
  function Admit(users: Users, id: string, now: int): (u: Users)
    ensures u.Keys == users.Keys + {id}
    ensures u[id] == Lookup(users, id, now)
    ensures forall other :: other in users ==> u[other] == users[other]
  {
    users[id := Lookup(users, id, now)]
  }

  // ---- checkAndIncrement ----

  /** The weekly limit of a package; an unknown package gets nothing. */
  function WeeklyLimit(package: string, cfg: Config): (l: Limit)
    ensures l.Unbounded? <==> package == "Elite"
    ensures package == "Pro" ==> l == Bounded(cfg.proWeeklyLimit)
    ensures package in {"Starter", "trial"} ==> l == Bounded(cfg.starterWeeklyLimit)
    ensures package !in KnownPackages ==> l == Bounded(0)
  {
    if package == "Elite" then Unbounded
    else if package == "Pro" then Bounded(cfg.proWeeklyLimit)
    else if package == "Starter" then Bounded(cfg.starterWeeklyLimit)
    else if package == "trial" then Bounded(cfg.starterWeeklyLimit)
    else Bounded(0)
  }

  /** More than seven days have passed since the window started (strictly). */
  predicate WindowStale(a: Account, now: int)
  {
    now - a.lastRequestReset > WeekMs
  }

  /** The row after the weekly reset check: a stale window restarts at `now` with no requests. */
  function ResetWindow(a: Account, now: int): (r: Account)
    ensures r.package == a.package && r.trialStart == a.trialStart
    ensures WindowStale(a, now) ==> r.requestsWeek == 0 && r.lastRequestReset == now
    ensures !WindowStale(a, now) ==> r == a
    ensures !WindowStale(r, now)
  {
    if WindowStale(a, now) then a.(requestsWeek := 0, lastRequestReset := now) else a
  }

  datatype Decision = Decision(allowed: bool, limit: Limit)
  datatype Consumed = Consumed(decision: Decision, account: Account)

  /**
   * checkAndIncrement on a row: reset a stale window, then admit the request
   * and count it iff the count is below the package's limit.
   */
  function Consume(a: Account, now: int, cfg: Config): (r: Consumed)
    ensures r.decision.limit == WeeklyLimit(a.package, cfg)
    ensures r.decision.allowed <==> !Reached(ResetWindow(a, now).requestsWeek, WeeklyLimit(a.package, cfg))
    ensures r.account.requestsWeek == ResetWindow(a, now).requestsWeek + (if r.decision.allowed then 1 else 0)
    ensures r.account.package == a.package && r.account.trialStart == a.trialStart
    ensures r.account.lastRequestReset == ResetWindow(a, now).lastRequestReset
  {
    var row := ResetWindow(a, now);
    var limit := WeeklyLimit(a.package, cfg);
    if Reached(row.requestsWeek, limit) then Consumed(Decision(false, limit), row)
    else Consumed(Decision(true, limit), row.(requestsWeek := row.requestsWeek + 1))
  }

  /** A count at or below a finite limit stays at or below it. */
  lemma QuotaNeverExceeded(a: Account, now: int, cfg: Config)
    requires WeeklyLimit(a.package, cfg).Bounded?
    requires a.requestsWeek <= WeeklyLimit(a.package, cfg).n
    ensures Consume(a, now, cfg).account.requestsWeek <= WeeklyLimit(a.package, cfg).n
  {
  }

  /** A denied request leaves the row as the reset check left it; within a live window, untouched. */
  lemma DeniedChangesNothing(a: Account, now: int, cfg: Config)
    requires !Consume(a, now, cfg).decision.allowed
    ensures Consume(a, now, cfg).account == ResetWindow(a, now)
    ensures !WindowStale(a, now) ==> Consume(a, now, cfg).account == a
  {
  }

  /** Elite is never denied; a package outside the table always is. */
  lemma EliteAndUnknownPackages(a: Account, now: int, cfg: Config)
    ensures a.package == "Elite" ==> Consume(a, now, cfg).decision.allowed
    ensures a.package !in KnownPackages ==> !Consume(a, now, cfg).decision.allowed
  {
  }

  /** The reset comes before the check: a stale window at its limit admits the request and ends at one. */
  lemma StaleWindowAtLimitAdmitted(a: Account, now: int, cfg: Config)
    requires WindowStale(a, now)
    requires WeeklyLimit(a.package, cfg) != Bounded(0)
    ensures Consume(a, now, cfg).decision.allowed
    ensures Consume(a, now, cfg).account.requestsWeek == 1
    ensures Consume(a, now, cfg).account.lastRequestReset == now
  {
  }

  /** Exactly seven days after the window started is still inside it. */
  lemma ExactlyOneWeekKeepsWindow(a: Account, cfg: Config)
    ensures ResetWindow(a, a.lastRequestReset + WeekMs) == a
    ensures Consume(a, a.lastRequestReset + WeekMs, cfg).account.requestsWeek >= a.requestsWeek
  {
  }

  /** The reset happens at most once per stale window. */
  lemma ResetOncePerWindow(a: Account, now: int)
    ensures ResetWindow(ResetWindow(a, now), now) == ResetWindow(a, now)
  {
  }

  /** The outcomes and final row of `k` requests made in a row at the same time. */
  datatype Run = Run(outcomes: seq<bool>, account: Account)

  function Burst(a: Account, now: int, cfg: Config, k: nat): (r: Run)
    ensures |r.outcomes| == k
    decreases k
  {
    if k == 0 then Run([], a)
    else
      var c := Consume(a, now, cfg);
      var rest := Burst(c.account, now, cfg, k - 1);
      Run([c.decision.allowed] + rest.outcomes, rest.account)
  }

  /**
   * Within one window, of `k` requests in a row exactly the first
   * `limit - used` are admitted (none when the count is already past the
   * limit), and the count stops at the limit, or stays where it was above it.
   */
  lemma {:induction false} BurstSaturates(a: Account, now: int, cfg: Config, k: nat)
    requires WeeklyLimit(a.package, cfg).Bounded?
    ensures var n, used := WeeklyLimit(a.package, cfg).n, ResetWindow(a, now).requestsWeek;
            && (k > 0 ==>
                  Burst(a, now, cfg, k).account.requestsWeek == if used + k <= n then used + k else if used <= n then n else used)
            && forall i :: 0 <= i < k ==> Burst(a, now, cfg, k).outcomes[i] == (i < n - used)
    decreases k
  {
    if k > 0 {
      var c := Consume(a, now, cfg);
      assert ResetWindow(c.account, now) == c.account;
      BurstSaturates(c.account, now, cfg, k - 1);
      var r := Burst(a, now, cfg, k);
      var rest := Burst(c.account, now, cfg, k - 1);
      assert r.outcomes == [c.decision.allowed] + rest.outcomes;
      assert r.account == rest.account;
      var n, used := WeeklyLimit(a.package, cfg).n, ResetWindow(a, now).requestsWeek;
      assert c.account.package == a.package;
      assert c.account.requestsWeek == if used < n then used + 1 else used;
      forall i | 0 <= i < k
        ensures r.outcomes[i] == (i < WeeklyLimit(a.package, cfg).n - ResetWindow(a, now).requestsWeek)
      {
        if i > 0 {
          assert r.outcomes[i] == rest.outcomes[i - 1];
        }
      }
    }
  }

  /** An Elite row admits every one of any number of requests. */
  lemma {:induction false} EliteBurstAllAdmitted(a: Account, now: int, cfg: Config, k: nat)
    requires a.package == "Elite"
    ensures forall i :: 0 <= i < k ==> Burst(a, now, cfg, k).outcomes[i]
    decreases k
  {
    if k > 0 {
      var c := Consume(a, now, cfg);
      EliteBurstAllAdmitted(c.account, now, cfg, k - 1);
      var r := Burst(a, now, cfg, k);
      forall i | 0 <= i < k ensures r.outcomes[i] {
        if i > 0 {
          assert r.outcomes[i] == Burst(c.account, now, cfg, k - 1).outcomes[i - 1];
        }
      }
    }
  }

  // ---- trial gate and status ----

  /** The trial length in milliseconds. */
  function TrialMs(cfg: Config): nat
  {
    cfg.trialDurationHours * HourMs
  }

  /** The chat endpoint's trial check: a trial row whose trial started strictly more than the trial length ago. */
  function TrialGateDenies(a: Account, now: int, cfg: Config): (d: bool)
    ensures d ==> a.package == "trial"
    ensures a.package == "trial" ==> (d <==> now > a.trialStart + cfg.trialDurationHours * HourMs)
  {
    a.package == "trial" && now - a.trialStart > TrialMs(cfg)
  }

  /** The body of the status endpoint's reply. */
  datatype Status = Status(trialActive: bool, expired: bool, package: string, requestsWeek: nat)

  /** The status of a row: the trial is active strictly before its length has elapsed. */
  function StatusOf(a: Account, now: int, cfg: Config): (s: Status)
    ensures s.trialActive <==> a.package == "trial" && now - a.trialStart < TrialMs(cfg)
    ensures s.expired <==> a.package == "trial" && now - a.trialStart >= TrialMs(cfg)
    ensures s.package != "trial" ==> !s.trialActive && !s.expired
    ensures s.package == a.package && s.requestsWeek == a.requestsWeek
  {
    var trialActive := a.package == "trial" && now - a.trialStart < TrialMs(cfg);
    Status(trialActive, a.package == "trial" && !trialActive, a.package, a.requestsWeek)
  }

  /** Whenever the chat gate refuses a trial, the status calls it expired; the converse fails only at the boundary. */
  lemma GateDenialMeansExpired(a: Account, now: int, cfg: Config)
    ensures TrialGateDenies(a, now, cfg) ==> StatusOf(a, now, cfg).expired
    ensures StatusOf(a, now, cfg).expired && now - a.trialStart != TrialMs(cfg) ==> TrialGateDenies(a, now, cfg)
  {
  }

  /** Exactly at the trial length, the status reports expired while the chat gate still admits. */
  lemma StatusAndGateDisagreeAtBoundary(a: Account, cfg: Config)
    requires a.package == "trial"
    ensures StatusOf(a, a.trialStart + TrialMs(cfg), cfg).expired
    ensures !TrialGateDenies(a, a.trialStart + TrialMs(cfg), cfg)
  {
  }

  /** A freshly created trial row is active (for a positive length) and passes the chat gate. */
  lemma NewTrialIsLive(now: int, cfg: Config)
    ensures !TrialGateDenies(NewTrial(now), now, cfg)
    ensures StatusOf(NewTrial(now), now, cfg).trialActive <==> cfg.trialDurationHours > 0
  {
  }

  // ---- plan transitions ----

  /** /api/start-trial: rejected without a user id; otherwise the row becomes a fresh trial starting now. */
  function TrialStarted(users: Users, userId: string, now: int): (r: Option<Users>)
    ensures r.None? <==> userId == ""
    ensures r.Some? ==> r.value.Keys == users.Keys + {userId}
    ensures r.Some? ==> r.value[userId] == NewTrial(now)
    ensures r.Some? ==> forall other :: other in users && other != userId ==> r.value[other] == users[other]
  {
    if userId == "" then None else Some(users[userId := NewTrial(now)])
  }

  /**
   * /api/activate: rejected without a user id or package; otherwise the row
   * gets the package and a new empty window, keeping its trial start. An
   * inserted row has no trial start, which reads as time 0.
   */
  function Activated(users: Users, userId: string, package: string, now: int): (r: Option<Users>)
    ensures r.None? <==> userId == "" || package == ""
    ensures r.Some? ==> r.value.Keys == users.Keys + {userId}
    ensures r.Some? ==> r.value[userId].package == package && r.value[userId].requestsWeek == 0
    ensures r.Some? ==> r.value[userId].lastRequestReset == now
    ensures r.Some? ==> r.value[userId].trialStart == if userId in users then users[userId].trialStart else 0
    ensures r.Some? ==> forall other :: other in users && other != userId ==> r.value[other] == users[other]
  {
    if userId == "" || package == "" then None
    else
      var trialStart := if userId in users then users[userId].trialStart else 0;
      Some(users[userId := Account(package, 0, trialStart, now)])
  }

  /** After an activation, the very next request is judged by the new package's limit. */
  lemma ActivationTakesEffectAtOnce(users: Users, userId: string, package: string, now: int, cfg: Config)
    requires Activated(users, userId, package, now).Some?
    ensures var u := Activated(users, userId, package, now).value;
            && Lookup(u, userId, now).package == package
            && Consume(Lookup(u, userId, now), now, cfg).decision.limit == WeeklyLimit(package, cfg)
            && (Consume(Lookup(u, userId, now), now, cfg).decision.allowed <==> WeeklyLimit(package, cfg) != Bounded(0))
  {
  }

  /** After starting a trial, the next chat request passes the trial gate and is admitted iff trials get any requests. */
  lemma StartTrialTakesEffectAtOnce(users: Users, userId: string, now: int, cfg: Config)
    requires TrialStarted(users, userId, now).Some?
    ensures var row := Lookup(TrialStarted(users, userId, now).value, userId, now);
            && !TrialGateDenies(row, now, cfg)
            && (Consume(row, now, cfg).decision.allowed <==> cfg.starterWeeklyLimit > 0)
  {
  }

  // ---- /api/chat ----

  /** The chat request body; a field the client left out is the empty string. */
  datatype ChatRequest = ChatRequest(userId: string, topic: string, message: string, imageDescription: string)

  /** What the completion service gave back: a failure, or a reply whose empty content means none. */
  datatype Completion = CompletionFailed | Completed(content: string)

  datatype ChatResponse =
    | MissingFields             // 400 "Missing required fields"
    | TrialExpired              // 403 "Trial expired"
    | LimitReached(limit: Limit) // 429 "Request limit reached"
    | UnknownTopic              // 400 "Unknown topic"
    | NoResponse                // the builder call threw outside the `try`: the handler answers nothing
    | NoReply                   // 500 "No reply from OpenAI"
    | CompletionError           // 500 "OpenAI request failed"
    | Reply(text: string)

  /** The response, the table afterwards, and what was sent for completion, if anything. */
  datatype ChatStep = ChatStep(response: ChatResponse, users: Users, sent: Option<Prompts.Payload>)

  /** The answer once the completion service has replied. */
  function ReplyFrom(completion: Completion): (r: ChatResponse)
    ensures r.Reply? <==> completion.Completed? && completion.content != ""
    ensures r.Reply? ==> r.text == completion.content
    ensures r == CompletionError <==> completion.CompletionFailed?
    ensures r.Reply? || r == NoReply || r == CompletionError
  {
    match completion
    case CompletionFailed => CompletionError
    case Completed(content) => if content == "" then NoReply else Reply(content)
  }

  /** What follows a counted request: the response and what was sent for completion. */
  datatype Dispatched = Dispatched(response: ChatResponse, sent: Option<Prompts.Payload>)

  /**
   * The steps after the request is counted: refuse a topic the lookup did
   * not find, call what it found, and answer from the completion service.
   */
  function Dispatch(builder: Objects.Property<Prompts.Topic>, req: ChatRequest, completion: Completion): (d: Dispatched)
    ensures d.response == UnknownTopic <==> builder.Undefined?
    ensures d.response == NoResponse <==> builder.Inherited? && builder.name !in Prompts.ReturningMembers
    ensures d.sent.Some? <==> builder.Own? || (builder.Inherited? && builder.name in Prompts.ReturningMembers)
    ensures builder.Own? ==> d.sent == Some(Prompts.Messages(Prompts.Build(builder.value, req.message, req.imageDescription)))
    ensures builder.Inherited? && d.sent.Some? ==> d.sent == Some(Prompts.NotMessages(builder.name))
    ensures d.sent.Some? ==> d.response == ReplyFrom(completion)
  {
    if builder.Undefined? then Dispatched(UnknownTopic, None)
    else
      var call := Prompts.CallBuilder(builder, req.message, req.imageDescription);
      if call.Threw? then Dispatched(NoResponse, None)
      else Dispatched(ReplyFrom(completion), Some(call.payload))
  }

  /**
   * The chat endpoint, given what the read of the builder table yields for
   * the request's topic: check the fields, load the row, apply the trial
   * gate, consume a request, then call what the read found and ask for a
   * completion.
   */
  function ChatWith(builder: Objects.Property<Prompts.Topic>, users: Users, req: ChatRequest,
                    now: int, cfg: Config, completion: Completion): (r: ChatStep)
    ensures r.users.Keys <= users.Keys + {req.userId}
    ensures forall other :: other in users && other != req.userId ==> other in r.users && r.users[other] == users[other]
    ensures r.response != MissingFields ==> r.users.Keys == users.Keys + {req.userId}
    ensures r.response == NoResponse ==> builder.Inherited?
    ensures r.sent.Some? && r.sent.value.NotMessages? ==> builder.Inherited?
  {
    if req.userId == "" || req.topic == "" || req.message == "" then ChatStep(MissingFields, users, None)
    else
      var loaded := Admit(users, req.userId, now);
      var row := loaded[req.userId];
      if TrialGateDenies(row, now, cfg) then ChatStep(TrialExpired, loaded, None)
      else
        var c := Consume(row, now, cfg);
        var charged := loaded[req.userId := c.account];
        if !c.decision.allowed then ChatStep(LimitReached(c.decision.limit), charged, None)
        else
          var d := Dispatch(builder, req, completion);
          ChatStep(d.response, charged, d.sent)
  }

  /** The chat endpoint as the server runs it, with `prompts[topic]`. */
  function HandleChat(users: Users, req: ChatRequest, now: int, cfg: Config, completion: Completion): (r: ChatStep)
    ensures r.users.Keys <= users.Keys + {req.userId}
    ensures forall other :: other in users && other != req.userId ==> other in r.users && r.users[other] == users[other]
    ensures r.response != MissingFields ==> r.users.Keys == users.Keys + {req.userId}
  {
    ChatWith(Prompts.PromptsProperty(req.topic), users, req, now, cfg, completion)
  }

  /** The chat endpoint with the lookup restricted to the five own builders. */
  function HandleChatOwnKeys(users: Users, req: ChatRequest, now: int, cfg: Config, completion: Completion): (r: ChatStep)
    ensures r.response != NoResponse
    ensures r.sent.Some? ==> r.sent.value.Messages?
  {
    ChatWith(Prompts.OwnBuilderProperty(req.topic), users, req, now, cfg, completion)
  }

  /** A request missing a field is refused before anything is read or written. */
  lemma MissingFieldsChangeNothing(users: Users, req: ChatRequest, now: int, cfg: Config, completion: Completion)
    requires req.userId == "" || req.topic == "" || req.message == ""
    ensures HandleChat(users, req, now, cfg, completion) == ChatStep(MissingFields, users, None)
  {
  }

  /** An expired trial is refused before any quota is consumed. */
  lemma ExpiredTrialConsumesNothing(users: Users, req: ChatRequest, now: int, cfg: Config, completion: Completion)
    requires req.userId != "" && req.topic != "" && req.message != ""
    requires req.userId in users && TrialGateDenies(users[req.userId], now, cfg)
    ensures HandleChat(users, req, now, cfg, completion) == ChatStep(TrialExpired, users, None)
  {
  }

  /**
   * A request over its quota is refused with its package's limit; the row
   * keeps the weekly reset the check wrote, its count unchanged, and nothing
   * is sent.
   */
  lemma LimitReachedKeepsReset(users: Users, req: ChatRequest, now: int, cfg: Config, completion: Completion)
    requires req.userId != "" && req.topic != "" && req.message != ""
    requires !TrialGateDenies(Lookup(users, req.userId, now), now, cfg)
    requires !Consume(Lookup(users, req.userId, now), now, cfg).decision.allowed
    ensures var row := Lookup(users, req.userId, now);
            HandleChat(users, req, now, cfg, completion)
              == ChatStep(LimitReached(WeeklyLimit(row.package, cfg)),
                          Admit(users, req.userId, now)[req.userId := ResetWindow(row, now)], None)
  {
  }

  /**
   * Each refusal that comes before the topic is read is given exactly when
   * its condition holds: a missing field, then the trial gate, then the quota.
   */
  lemma RefusalsExactly(users: Users, req: ChatRequest, now: int, cfg: Config, completion: Completion)
    ensures var r := HandleChat(users, req, now, cfg, completion);
            var present := req.userId != "" && req.topic != "" && req.message != "";
            var row := Lookup(users, req.userId, now);
            && (r.response == MissingFields <==> !present)
            && (r.response == TrialExpired <==> present && TrialGateDenies(row, now, cfg))
            && (r.response.LimitReached? <==>
                  present && !TrialGateDenies(row, now, cfg) && !Consume(row, now, cfg).decision.allowed)
  {
  }

  /**
   * Quota is consumed before the topic is looked up: every admitted request
   * is counted, and it is refused as "Unknown topic" exactly when the topic is
   * neither a builder key nor an inherited member name.
   */
  lemma UnknownTopicStillConsumes(users: Users, req: ChatRequest, now: int, cfg: Config, completion: Completion)
    requires req.userId != "" && req.topic != "" && req.message != ""
    requires !TrialGateDenies(Lookup(users, req.userId, now), now, cfg)
    requires Consume(Lookup(users, req.userId, now), now, cfg).decision.allowed
    ensures var r := HandleChat(users, req, now, cfg, completion);
            && r.users[req.userId] == Consume(Lookup(users, req.userId, now), now, cfg).account
            && r.users[req.userId].requestsWeek == ResetWindow(Lookup(users, req.userId, now), now).requestsWeek + 1
            && (r.response == UnknownTopic <==> req.topic !in Prompts.TopicKeys + Objects.PrototypeMembers)
            && (r.response == UnknownTopic ==> r.sent.None?)
  {
  }

  /**
   * An admitted request whose topic names an inherited member passes the
   * topic guard and is counted. The nine members that throw leave the request
   * unanswered; the other three send their return value for completion.
   */
  lemma InheritedTopicAfterCharge(users: Users, req: ChatRequest, now: int, cfg: Config, completion: Completion)
    requires req.userId != "" && req.message != "" && req.topic in Objects.PrototypeMembers
    requires !TrialGateDenies(Lookup(users, req.userId, now), now, cfg)
    requires Consume(Lookup(users, req.userId, now), now, cfg).decision.allowed
    ensures var r := HandleChat(users, req, now, cfg, completion);
            && r.users[req.userId].requestsWeek == ResetWindow(Lookup(users, req.userId, now), now).requestsWeek + 1
            && r.response != UnknownTopic
            && (r.response == NoResponse <==> req.topic !in Prompts.ReturningMembers)
            && (r.response == NoResponse ==> r.sent.None?)
            && (r.response != NoResponse ==>
                  r.sent == Some(Prompts.NotMessages(req.topic)) && r.response == ReplyFrom(completion))
  {
  }

  /**
   * Something goes out for completion only for an admitted request whose
   * topic is a builder key or one of the three inherited members that return;
   * for a builder key it is that builder's messages for the message and image
   * description. The request has then been counted.
   */
  lemma SentOnlyWhenAdmitted(users: Users, req: ChatRequest, now: int, cfg: Config, completion: Completion)
    ensures var r := HandleChat(users, req, now, cfg, completion);
            var row := Lookup(users, req.userId, now);
            r.sent.Some? <==>
              && req.userId != "" && req.topic != "" && req.message != ""
              && !TrialGateDenies(row, now, cfg)
              && Consume(row, now, cfg).decision.allowed
              && req.topic in Prompts.TopicKeys + Prompts.ReturningMembers
    ensures var r := HandleChat(users, req, now, cfg, completion);
            var row := Lookup(users, req.userId, now);
            r.sent.Some? ==>
              && (r.sent.value.Messages? <==> req.topic in Prompts.TopicKeys)
              && (r.sent.value.Messages? ==>
                    r.sent.value.messages == Prompts.Build(Prompts.TopicOf(req.topic).value, req.message, req.imageDescription))
              && r.users[req.userId] == Consume(row, now, cfg).account
              && r.users[req.userId].requestsWeek == ResetWindow(row, now).requestsWeek + 1
  {
  }

  /** A reply reaches the user only when something was sent and the completion had content. */
  lemma ReplyOnlyAfterSending(users: Users, req: ChatRequest, now: int, cfg: Config, completion: Completion)
    ensures HandleChat(users, req, now, cfg, completion).response.Reply? <==>
            HandleChat(users, req, now, cfg, completion).sent.Some? && completion.Completed? && completion.content != ""
  {
  }

  /** A user's first chat request, on a builder topic with the default limits, is admitted and counted once. */
  lemma FirstChatOfNewUser(users: Users, req: ChatRequest, now: int, completion: Completion)
    requires req.userId != "" && req.message != "" && req.userId !in users
    requires req.topic in Prompts.TopicKeys
    ensures var r := HandleChat(users, req, now, DefaultConfig, completion);
            && r.sent == Some(Prompts.Messages(Prompts.Build(Prompts.TopicOf(req.topic).value, req.message, req.imageDescription)))
            && req.userId in r.users && r.users[req.userId] == NewTrial(now).(requestsWeek := 1)
  {
    var row := NewTrial(now);
    assert Lookup(users, req.userId, now) == row;
    assert !TrialGateDenies(row, now, DefaultConfig);
    assert Consume(row, now, DefaultConfig) == Consumed(Decision(true, Bounded(5)), row.(requestsWeek := 1));
    SentOnlyWhenAdmitted(users, req, now, DefaultConfig, completion);
  }

  /**
   * With the own-key lookup every request is answered and only message lists
   * are sent; it differs from the server only on inherited member names,
   * which it refuses as unknown topics after the same charge.
   */
  lemma OwnKeysAnswerEveryRequest(users: Users, req: ChatRequest, now: int, cfg: Config, completion: Completion)
    ensures req.topic !in Objects.PrototypeMembers ==>
              HandleChatOwnKeys(users, req, now, cfg, completion) == HandleChat(users, req, now, cfg, completion)
    ensures req.topic in Objects.PrototypeMembers ==>
              && HandleChatOwnKeys(users, req, now, cfg, completion).users == HandleChat(users, req, now, cfg, completion).users
              && HandleChatOwnKeys(users, req, now, cfg, completion).sent.None?
  {
    if req.topic !in Objects.PrototypeMembers {
      assert Prompts.OwnBuilderProperty(req.topic) == Prompts.PromptsProperty(req.topic);
    }
  }
}
