/**
 * `QuizEngine` of backend/quiz_engine.py: the per-day generation counter and the choice of
 * provider. The providers themselves (HTTP calls with retries) are an oracle: each call
 * receives the reply the chosen provider would give.
 */
module Generation {
  import opened Common
  import opened QuizData

  /** A calendar day; only equality of days matters. */
  type Date = int

  /** Python truthiness of a decoded value (`if result:`). */
  predicate Truthy(v: Json) {
    match v
    case JNull => false
    case JBool(b) => b
    case JInt(i) => i != 0
    case JFloat(f) => f != 0.0
    case JStr(s) => s != []
    case JArr(items) => items != []
    case JObj(fields) => fields != map[]
  }

  /** The names in the `PROVIDERS` table. */
  const KnownProviders: set<string> := {"ollama", "gemini", "claude"}

  /** `provider or config.DEFAULT_PROVIDER`. */
  function SelectProvider(provider: string, defaultProvider: string): (r: string)
    ensures provider != [] ==> r == provider
    ensures provider == [] ==> r == defaultProvider
  {
    if provider != [] then provider else defaultProvider
  }

  /**
   * The selected name is empty only when both names are, and selecting again with the same
   * default keeps it.
   */
  lemma SelectProviderSettles(provider: string, defaultProvider: string)
    ensures SelectProvider(provider, defaultProvider) == [] <==> provider == [] && defaultProvider == []
    ensures SelectProvider(SelectProvider(provider, defaultProvider), defaultProvider) == SelectProvider(provider, defaultProvider)
  {
  }

  /** The two fields `_daily_count` and `_daily_date`. */
  datatype DailyCounter = DailyCounter(count: nat, date: Date)

  /** The first half of `_check_daily_limit`: a new day starts the count again. */
  function Rollover(c: DailyCounter, today: Date): (r: DailyCounter)
    ensures r.date == today
    ensures c.date == today ==> r == c
    ensures c.date != today ==> r.count == 0
  {
    if today != c.date then DailyCounter(0, today) else c
  }

  /**
   * Rolling over settles the counter on today: a second rollover on the same day changes
   * nothing, and a rollover never raises the count.
   */
  lemma RolloverSettles(c: DailyCounter, today: Date)
    ensures Rollover(Rollover(c, today), today) == Rollover(c, today)
    ensures Rollover(c, today).count <= c.count
    ensures Rollover(c, today) == c <==> c.date == today
  {
  }

  /** The answer of `_check_daily_limit`: a limit of 0 or less means unlimited. */
  predicate UnderLimit(c: DailyCounter, limit: int) {
    limit <= 0 || c.count < limit
  }

  /** What a call to `generate_quiz` gives its caller. */
  datatype Outcome =
    | LimitExceeded                  // `raise DailyLimitExceeded()`
    | Returned(result: Option<Json>) // the provider's reply, or None for an unknown provider

  /** One call: the provider asked for, the day, and the reply that provider would give. */
  datatype Request = Request(provider: string, today: Date, reply: Option<Json>)

  /** Whether a reply counts towards the daily limit (`if result:`). */
  predicate Counts(reply: Option<Json>) {
    reply.Some? && Truthy(reply.value)
  }

  /** `generate_quiz` as a value: the new counter and the outcome. */
  function GenerateStep(c: DailyCounter, limit: int, defaultProvider: string, req: Request): (DailyCounter, Outcome) {
    var rolled := Rollover(c, req.today);
    if !UnderLimit(rolled, limit) then (rolled, LimitExceeded)
    else if SelectProvider(req.provider, defaultProvider) !in KnownProviders then (rolled, Returned(None))
    else if Counts(req.reply) then (rolled.(count := rolled.count + 1), Returned(req.reply))
    else (rolled, Returned(req.reply))
  }

  /**
   * One call: it raises exactly when the count of the day has reached a positive limit; an
   * unknown provider gives None; the count goes up by exactly one, and only for a truthy
   * reply; the stored day is today even when the call raises.
   */
  lemma GenerateStepSpec(c: DailyCounter, limit: int, defaultProvider: string, req: Request)
    ensures var (c', out) := GenerateStep(c, limit, defaultProvider, req);
      var start := Rollover(c, req.today).count;
      && c'.date == req.today
      && (out == LimitExceeded <==> limit > 0 && start >= limit)
      && (out.Returned? && SelectProvider(req.provider, defaultProvider) !in KnownProviders ==> out.result == None)
      && (out.Returned? && SelectProvider(req.provider, defaultProvider) in KnownProviders ==> out.result == req.reply)
      && (c'.count == if out.Returned? && Counts(out.result) then start + 1 else start)
  {
  }

  /** A sequence of calls, in order. */
  function Run(c: DailyCounter, limit: int, defaultProvider: string, reqs: seq<Request>): (DailyCounter, seq<Outcome>)
    decreases |reqs|
  {
    if reqs == [] then (c, [])
    else
      var (c1, out) := GenerateStep(c, limit, defaultProvider, reqs[0]);
      var (c2, outs) := Run(c1, limit, defaultProvider, reqs[1..]);
      (c2, [out] + outs)
  }

  /** The number of calls that returned a quiz that counted. */
  function Successes(outs: seq<Outcome>): nat
    decreases |outs|
  {
    if outs == [] then 0
    else (if outs[0].Returned? && Counts(outs[0].result) then 1 else 0) + Successes(outs[1..])
  }

  /**
   * Within one day the counter is exactly the count the day started with plus the calls that
   * returned a quiz, and a positive limit is never exceeded: at most `limit - start` quizzes
   * are generated that day.
   */
  lemma {:induction false} DailyCap(c: DailyCounter, limit: int, defaultProvider: string, reqs: seq<Request>, today: Date)
    requires forall i :: 0 <= i < |reqs| ==> reqs[i].today == today
    requires c.date == today
    ensures var (c', outs) := Run(c, limit, defaultProvider, reqs);
      && |outs| == |reqs|
      && c'.date == today
      && c'.count == c.count + Successes(outs)
      && (0 < limit && c.count <= limit ==> c'.count <= limit)
    decreases |reqs|
  {
    if reqs != [] {
      GenerateStepSpec(c, limit, defaultProvider, reqs[0]);
      var (c1, out) := GenerateStep(c, limit, defaultProvider, reqs[0]);
      assert forall i :: 0 <= i < |reqs[1..]| ==> reqs[1..][i].today == today;
      DailyCap(c1, limit, defaultProvider, reqs[1..], today);
      var (c2, outs) := Run(c1, limit, defaultProvider, reqs[1..]);
      assert ([out] + outs)[1..] == outs;
    }
  }

  /** A reply the provider keeps after validating and sanitising is truthy, so it counts. */
  lemma AcceptedReplyCounts(data: Json)
    requires AcceptReply(data).Some?
    ensures Counts(AcceptReply(data))
  {
    AcceptReplySpec(data);
    assert "questions" in AcceptReply(data).value.fields;
  }

  /** The object holding the counter. */
  class QuizEngine {
    var dailyCount: nat
    var dailyDate: Date

    function Daily(): DailyCounter
      reads this
    {
      DailyCounter(dailyCount, dailyDate)
    }

    /** A new engine starts with no generation on the day it is created. */
    constructor(today: Date)
      ensures Daily() == DailyCounter(0, today)
    {
      dailyCount := 0;
      dailyDate := today;
    }

    /** `_check_daily_limit`: rolls the counter over to today, then compares it with the limit. */
    method CheckDailyLimit(today: Date, limit: int) returns (ok: bool)
      modifies this
      ensures Daily() == Rollover(old(Daily()), today)
      ensures ok <==> UnderLimit(Daily(), limit)
    {
      if today != dailyDate {
        dailyCount := 0;
        dailyDate := today;
      }
      if limit <= 0 {
        return true;
      }
      return dailyCount < limit;
    }

    /**
     * `generate_quiz`: `reply` is what the selected provider answers; it is only consulted
     * when the provider is known.
     */
    method GenerateQuiz(provider: string, defaultProvider: string, today: Date, limit: int, reply: Option<Json>)
      returns (out: Outcome)
      modifies this
      ensures (Daily(), out) == GenerateStep(old(Daily()), limit, defaultProvider, Request(provider, today, reply))
    {
      var ok := CheckDailyLimit(today, limit);
      if !ok {
        return LimitExceeded;
      }
      var name := SelectProvider(provider, defaultProvider);
      if name !in KnownProviders {
        return Returned(None);
      }
      if reply.Some? && Truthy(reply.value) {
        dailyCount := dailyCount + 1;
      }
      return Returned(reply);
    }
  }
}
