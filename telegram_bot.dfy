/**
 * The chat front end: the daily usage limiter over the `usage` table, the
 * account-number format check, the order of the checks made by `/consultar`
 * and the idempotent `/start` registration in the `chats` table.
 */
module TelegramBot {
  import opened Wrappers
  import opened JsText

  /** A calendar date as the bot stores it: the `YYYY-MM-DD` part of an ISO timestamp. */
  type Date = string

  /** A row of the `usage` table. */
  datatype UsageRow = UsageRow(requestCount: int, lastRequestDate: Date)

  /** What `checkUsageLimit` resolves with. */
  datatype Usage = Usage(allowed: bool, remaining: int)

  /** Grade queries a chat may make per calendar day. */
  const DailyLimit: nat := 2

  /** `/^\d{8,10}$/.test(s)`: the greedy `\d{8,10}` must end exactly at the end of `s`. */
  function IsValidAccountNumber(s: string): (ok: bool)
    ensures ok <==> 8 <= |s| <= 10 && AllDigits(s)
  {
    var run := DigitRun(s, 10);
    var taken := if run < 10 then run else 10;
    8 <= taken && taken == |s|
  }

  /** The row the table holds for a chat, if any. */
  function Lookup(usage: map<int, UsageRow>, chatId: int): Option<UsageRow>
  {
    if chatId in usage then Some(usage[chatId]) else None
  }

  /**
   * How many more calls on `today` the limiter admits for a chat whose row is
   * `row`: two when there is no row or it is dated another day, none once two
   * requests are recorded for today, otherwise one (the next admitted call
   * records the cap).
   */
  function Budget(row: Option<UsageRow>, today: Date): nat
  {
    if row.None? || row.value.lastRequestDate != today then DailyLimit
    else if row.value.requestCount >= DailyLimit then 0
    else 1
  }

  /**
   * One `checkUsageLimit` call for a chat whose row is `row`: the row the table
   * holds afterwards and the answer. A call is admitted exactly when the budget
   * is not spent, each admitted call spends one unit, and `remaining` is what
   * is left of the budget.
   */
  function LimitStep(row: Option<UsageRow>, today: Date): (r: (UsageRow, Usage))
    ensures r.0.lastRequestDate == today
    ensures r.1.allowed <==> Budget(row, today) > 0
    ensures r.1.allowed ==> Budget(Some(r.0), today) == Budget(row, today) - 1
    ensures !r.1.allowed ==> row == Some(r.0)
    ensures r.1.remaining == Budget(Some(r.0), today)
    ensures 0 <= r.1.remaining <= 1 && (!r.1.allowed ==> r.1.remaining == 0)
  {
    match row
    case None => (UsageRow(1, today), Usage(true, 1))
    case Some(u) =>
      if u.lastRequestDate == today then
        if u.requestCount >= 2 then (u, Usage(false, 0))
        else (UsageRow(2, today), Usage(true, 0))
      else (UsageRow(1, today), Usage(true, 1))
  }

  /** A `checkUsageLimit` call: which chat asks, and on which date. */
  datatype Call = Call(chatId: int, today: Date)

  /** The table after one call. */
  function After(usage: map<int, UsageRow>, call: Call): map<int, UsageRow>
  {
    usage[call.chatId := LimitStep(Lookup(usage, call.chatId), call.today).0]
  }

  /** Number of calls in `calls` made by `chatId` that are admitted, replaying them from `usage`. */
  function AdmittedFor(usage: map<int, UsageRow>, calls: seq<Call>, chatId: int): nat
    decreases |calls|
  {
    if calls == [] then 0
    else
      var admitted := LimitStep(Lookup(usage, calls[0].chatId), calls[0].today).1.allowed;
      (if calls[0].chatId == chatId && admitted then 1 else 0)
        + AdmittedFor(After(usage, calls[0]), calls[1..], chatId)
  }

  /** Calls of other chats do not touch a chat's row. */
  lemma AfterOtherChat(usage: map<int, UsageRow>, call: Call, chatId: int)
    requires call.chatId != chatId
    ensures Lookup(After(usage, call), chatId) == Lookup(usage, chatId)
  {
  }

  /**
   * Replaying any interleaving of calls, a chat whose calls all carry the date
   * `day` is admitted at most as often as its budget for `day` allows.
   */
  lemma {:induction false} AdmittedWithinBudget(usage: map<int, UsageRow>, calls: seq<Call>, chatId: int, day: Date)
    requires forall i | 0 <= i < |calls| && calls[i].chatId == chatId :: calls[i].today == day
    ensures AdmittedFor(usage, calls, chatId) <= Budget(Lookup(usage, chatId), day)
    decreases |calls|
  {
    if calls != [] {
      var next := After(usage, calls[0]);
      AdmittedWithinBudget(next, calls[1..], chatId, day);
      if calls[0].chatId == chatId {
        assert Lookup(next, chatId) == Some(LimitStep(Lookup(usage, chatId), day).0);
      } else {
        AfterOtherChat(usage, calls[0], chatId);
      }
    }
  }

  /** The daily cap: whatever the table holds and whatever other chats do, one day's calls of a chat are admitted at most twice. */
  lemma AtMostTwoPerDay(usage: map<int, UsageRow>, calls: seq<Call>, chatId: int, day: Date)
    requires forall i | 0 <= i < |calls| && calls[i].chatId == chatId :: calls[i].today == day
    ensures AdmittedFor(usage, calls, chatId) <= DailyLimit
  {
    AdmittedWithinBudget(usage, calls, chatId, day);
  }

  /** What the gateway's `/consultar` gives back to the bot. */
  datatype GatewayAnswer =
    | Answered(message: string)             // a 2xx answer with `data.message`
    | Rejected(status: int, error: string)  // a non-2xx answer with `data.error`
    | NoResponse                            // the request failed without an answer

  /** The reply `/consultar` ends with. */
  datatype ConsultarReply =
    | MissingAccount
    | InvalidFormat
    | LimitReached
    | Grades(message: string, remaining: int)
    | ShowError(error: string)
    | GenericError

  /** The reply once the gateway has answered an admitted query. */
  function GatewayReply(gateway: GatewayAnswer, remaining: int): (r: ConsultarReply)
    ensures r.Grades? || r.ShowError? || r.GenericError?
    ensures r.Grades? <==> gateway.Answered?
    ensures gateway.Answered? ==> r == Grades(gateway.message, remaining)
    ensures r.ShowError? <==> gateway.Rejected? && (gateway.status == 404 || gateway.status == 400)
    ensures r.ShowError? ==> r.error == gateway.error
  {
    match gateway
    case Answered(message) => Grades(message, remaining)
    case Rejected(status, error) =>
      if status == 404 || status == 400 then ShowError(error) else GenericError
    case NoResponse => GenericError
  }

  /** The reply `/start` chooses. */
  datatype StartReply = Welcome | AlreadyStarted

  /** The bot's sqlite database: the `usage` table keyed by chat id and the `chats` table. */
  class BotDb {
    var usage: map<int, UsageRow>
    var chats: set<int>

    /** A `bot.db` that does not exist yet: `CREATE TABLE IF NOT EXISTS` makes both tables empty. */
    constructor ()
      ensures usage == map[] && chats == {}
    {
      usage := map[];
      chats := {};
    }

    /** A restart over an existing `bot.db`: `CREATE TABLE IF NOT EXISTS` keeps every row, today's counts included. */
    constructor Open(u: map<int, UsageRow>, c: set<int>)
      ensures usage == u && chats == c
    {
      usage := u;
      chats := c;
    }

    /** `checkUsageLimit(chatId)` with `today` the current date. */
    method CheckUsageLimit(chatId: int, today: Date) returns (u: Usage)
      modifies this
      ensures chats == old(chats)
      ensures usage == After(old(usage), Call(chatId, today))
      ensures u == LimitStep(Lookup(old(usage), chatId), today).1
      ensures chatId !in old(usage) ==>
        usage == old(usage)[chatId := UsageRow(1, today)] && u == Usage(true, 1)
      ensures chatId in old(usage) && old(usage)[chatId].lastRequestDate == today
              && old(usage)[chatId].requestCount >= 2 ==>
        usage == old(usage) && u == Usage(false, 0)
      ensures chatId in old(usage) && old(usage)[chatId].lastRequestDate == today
              && old(usage)[chatId].requestCount < 2 ==>
        usage == old(usage)[chatId := UsageRow(2, today)] && u == Usage(true, 0)
      ensures chatId in old(usage) && old(usage)[chatId].lastRequestDate != today ==>
        usage == old(usage)[chatId := UsageRow(1, today)] && u == Usage(true, 1)
      ensures forall c | c != chatId :: Lookup(usage, c) == Lookup(old(usage), c)
    {
      if chatId !in usage {
        usage := usage[chatId := UsageRow(1, today)];
        u := Usage(true, 1);
      } else {
        var row := usage[chatId];
        if row.lastRequestDate == today {
          if row.requestCount >= 2 {
            u := Usage(false, 0);
            assert usage == usage[chatId := row];
          } else {
            usage := usage[chatId := UsageRow(2, today)];
            u := Usage(true, 0);
          }
        } else {
          usage := usage[chatId := UsageRow(1, today)];
          u := Usage(true, 1);
        }
      }
    }

    /** `/start`: register the chat unless it is already there, and pick the reply. */
    method Start(chatId: int) returns (reply: StartReply)
      modifies this
      ensures reply == if chatId in old(chats) then AlreadyStarted else Welcome
      ensures chats == old(chats) + {chatId}
      ensures usage == old(usage)
    {
      if chatId in chats {
        reply := AlreadyStarted;
      } else {
        chats := chats + {chatId};
        reply := Welcome;
      }
    }

    /**
     * `/consultar [arg]`: the argument must be present, then well formed, then
     * within the daily quota; only then is the gateway asked, and its answer
     * becomes the reply.
     */
    method Consultar(arg: Option<string>, chatId: int, today: Date, gateway: GatewayAnswer)
      returns (reply: ConsultarReply)
      modifies this
      ensures chats == old(chats)
      ensures Falsy(arg) ==> reply == MissingAccount && usage == old(usage)
      ensures !Falsy(arg) && !IsValidAccountNumber(Trim(arg.value)) ==>
        reply == InvalidFormat && usage == old(usage)
      ensures !Falsy(arg) && IsValidAccountNumber(Trim(arg.value)) ==>
        var u := LimitStep(Lookup(old(usage), chatId), today).1;
        && usage == After(old(usage), Call(chatId, today))
        && reply == if u.allowed then GatewayReply(gateway, u.remaining) else LimitReached
    {
      if Falsy(arg) {
        return MissingAccount;
      }
      var accountNumber := Trim(arg.value);
      if !IsValidAccountNumber(accountNumber) {
        return InvalidFormat;
      }
      var u := CheckUsageLimit(chatId, today);
      if !u.allowed {
        return LimitReached;
      }
      reply := GatewayReply(gateway, u.remaining);
    }
  }

  /** A second `/start` from the same chat is answered as a repeat and changes nothing. */
  method RepeatedStart(db: BotDb, chatId: int) returns (first: StartReply, second: StartReply)
    modifies db
    ensures first == if chatId in old(db.chats) then AlreadyStarted else Welcome
    ensures second == AlreadyStarted
    ensures db.chats == old(db.chats) + {chatId} && db.usage == old(db.usage)
  {
    first := db.Start(chatId);
    ghost var registered := db.chats;
    second := db.Start(chatId);
    assert db.chats == registered;
  }

  /**
   * A new chat querying three times on one day and once on the next: admitted
   * with one left, admitted with none left, refused, then admitted again.
   */
  method TwoDays(db: BotDb, chatId: int, day: Date, nextDay: Date)
    returns (u1: Usage, u2: Usage, u3: Usage, u4: Usage)
    requires chatId !in db.usage && day != nextDay
    modifies db
    ensures u1 == Usage(true, 1) && u2 == Usage(true, 0) && u3 == Usage(false, 0)
    ensures u4 == Usage(true, 1)
    ensures db.usage == old(db.usage)[chatId := UsageRow(1, nextDay)]
  {
    u1 := db.CheckUsageLimit(chatId, day);
    u2 := db.CheckUsageLimit(chatId, day);
    u3 := db.CheckUsageLimit(chatId, day);
    u4 := db.CheckUsageLimit(chatId, nextDay);
  }
}
