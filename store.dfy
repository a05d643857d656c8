/**
 * The server's `users` table and the endpoints that read and write it,
 * handling one request at a time. Each method performs the handler's steps
 * on the table in place and is proved to leave the table, and to answer,
 * as the functions of module Entitlement say.
 */
module UserStore {
  import opened Wrappers
  import opened Limits
  import Prompts
  import opened Entitlement

  class Store {
    /** The rows of the `users` table, by user id. */
    var users: Users
    /** The limits and trial length read from the environment. */
    const cfg: Config

    constructor (cfg: Config)
      ensures users == map[] && this.cfg == cfg
    {
      users := map[];
      this.cfg := cfg;
    }

    /** getUser: the stored row, or a fresh trial row inserted for an unknown id. */
    method GetUser(userId: string, now: int) returns (user: Account)
      modifies this
      ensures user == Lookup(old(users), userId, now)
      ensures users == Admit(old(users), userId, now)
    {
      if userId in users {
        user := users[userId];
        return;
      }
      user := NewTrial(now);
      users := users[userId := user];
    }

    /**
     * checkAndIncrement: reset a stale window (written at once), then deny at
     * the limit, or write the count plus one.
     */
    method CheckAndIncrement(userId: string, now: int) returns (decision: Decision)
      modifies this
      ensures var c := Consume(Lookup(old(users), userId, now), now, cfg);
              decision == c.decision && users == old(users)[userId := c.account]
    {
      var user := GetUser(userId, now);
      if now - user.lastRequestReset > WeekMs {
        users := users[userId := users[userId].(requestsWeek := 0, lastRequestReset := now)];
        user := user.(requestsWeek := 0);
      }
      var limit := WeeklyLimit(user.package, cfg);
      if Reached(user.requestsWeek, limit) {
        return Decision(false, limit);
      }
      users := users[userId := users[userId].(requestsWeek := user.requestsWeek + 1)];
      decision := Decision(true, limit);
    }

    /** GET /api/user/:id: the status of the (possibly just created) row. */
    method UserStatus(userId: string, now: int) returns (status: Status)
      modifies this
      ensures status == StatusOf(Lookup(old(users), userId, now), now, cfg)
      ensures users == Admit(old(users), userId, now)
    {
      var user := GetUser(userId, now);
      var trialActive := user.package == "trial" && now - user.trialStart < cfg.trialDurationHours * HourMs;
      var expired := user.package == "trial" && !trialActive;
      status := Status(trialActive, expired, user.package, user.requestsWeek);
    }

    /** POST /api/start-trial: `ok` is false for a missing user id (400), and then nothing is written. */
    method StartTrial(userId: string, now: int) returns (ok: bool)
      modifies this
      ensures ok <==> TrialStarted(old(users), userId, now).Some?
      ensures users == TrialStarted(old(users), userId, now).GetOr(old(users))
    {
      if userId == "" {
        return false;
      }
      users := users[userId := Account("trial", 0, now, now)];
      ok := true;
    }

    /** POST /api/activate: `ok` is false for a missing user id or package (400), and then nothing is written. */
    method Activate(userId: string, package: string, now: int) returns (ok: bool)
      modifies this
      ensures ok <==> Activated(old(users), userId, package, now).Some?
      ensures users == Activated(old(users), userId, package, now).GetOr(old(users))
    {
      if userId == "" || package == "" {
        return false;
      }
      if userId in users {
        users := users[userId := users[userId].(package := package, requestsWeek := 0, lastRequestReset := now)];
      } else {
        users := users[userId := Account(package, 0, 0, now)];
      }
      ok := true;
    }

    /**
     * POST /api/chat. The completion service is not called here: its answer is
     * the parameter `completion`, and `sent` is what would have been sent to it.
     */
    method Chat(req: ChatRequest, now: int, completion: Completion)
      returns (response: ChatResponse, sent: Option<Prompts.Payload>)
      modifies this
      ensures HandleChat(old(users), req, now, cfg, completion) == ChatStep(response, users, sent)
    {
      if req.userId == "" || req.topic == "" || req.message == "" {
        return MissingFields, None;
      }
      var userRow := GetUser(req.userId, now);
      if userRow.package == "trial" && now - userRow.trialStart > cfg.trialDurationHours * HourMs {
        return TrialExpired, None;
      }
      var decision := CheckAndIncrement(req.userId, now);
      if !decision.allowed {
        return LimitReached(decision.limit), None;
      }
      var builder := Prompts.PromptsProperty(req.topic);
      if builder.Undefined? {
        return UnknownTopic, None;
      }
      var call := Prompts.CallBuilder(builder, req.message, req.imageDescription);
      if call.Threw? {
        return NoResponse, None;
      }
      sent := Some(call.payload);
      match completion {
        case CompletionFailed =>
          response := CompletionError;
        case Completed(content) =>
          response := if content == "" then NoReply else Reply(content);
      }
    }
  }
}
